/** How often a job can start in any run of the single processor, orderly or not. A late Delete can make the
    orphan checker fail a job that a worker then fails or completes too, so that one start at a retry count leads
    to two at the next; it cannot do worse than that. */
module Attempts {
  import opened Jobs
  import opened Storage
  import opened JobRows
  import L = Lifecycle
  import O = OpenRegime
  import opened SingleProcessor
  import Mover
  import Refinement

  // ---- what is counted ----

  /** The action claims the job for a worker, at a retry count of the given kind. */
  predicate Starts(s: System, a: Action, id: JobId, at: int -> bool) {
    a.Claim? && a.id == id && Commits(s, a) && id in s.world.tables.enqueued && at(s.world.tables.enqueued[id].phase.retryCount)
  }

  /** The action fails an attempt of the job with such a retry count: into failed, or for good. */
  predicate Fails(s: System, a: Action, id: JobId, at: int -> bool) {
    && Commits(s, a) && StepOf(s, a).value.Fail?
    && StepOf(s, a).value.held.id == id && at(StepOf(s, a).value.held.phase.retryCount)
  }

  function StartsIn(run: seq<Action>, id: JobId, at: int -> bool): nat {
    if run == [] then 0
    else StartsIn(run[..|run| - 1], id, at) + One(Starts(After(run[..|run| - 1]), run[|run| - 1], id, at))
  }

  function FailsIn(run: seq<Action>, id: JobId, at: int -> bool): nat {
    if run == [] then 0
    else FailsIn(run[..|run| - 1], id, at) + One(Fails(After(run[..|run| - 1]), run[|run| - 1], id, at))
  }

  // ---- an attempt is failed at most twice ----

  /** The workers that hold such an attempt of the job. */
  function Holders(s: System, id: JobId, at: int -> bool): set<nat> {
    set w | w in s.workers && Holds(s, w) && s.workers[w].job.id == id && at(s.workers[w].job.phase.retryCount)
  }

  predicate RowAt(r: Rows, at: int -> bool) {
    r.processing.Some? && at(r.processing.value.phase.retryCount)
  }

  /** The checker holds such an attempt of the job, which is not the row in processing any more. */
  ghost predicate Stray(r: Rows, batch: seq<ProcessingJob>, id: JobId, at: int -> bool) {
    exists b :: b in batch && b.id == id && at(b.phase.retryCount) && r.processing != Some(b)
  }

  /** All who can still fail such an attempt. */
  ghost function Threats(s: System, id: JobId, at: int -> bool): nat {
    |Holders(s, id, at)| + One(RowAt(RowsIn(s, id), at)) + One(Stray(RowsIn(s, id), s.orphanBatch, id, at))
  }

  ghost predicate OrphansAreDistinct(s: System) {
    forall i, j :: 0 <= i < j < |s.orphanBatch| ==> s.orphanBatch[i].id != s.orphanBatch[j].id
  }

  lemma DistinctStep(s: System, a: Action)
    requires Enabled(s, a) && OrphansAreDistinct(s)
    ensures OrphansAreDistinct(Next(s, a))
  {
  }

  lemma ClaimedRecord(s: System, a: Action)
    requires O.Identity(s.world) && Enabled(s, a) && a.Claim?
    ensures a.id in s.world.tables.enqueued && s.world.tables.enqueued[a.id].id == a.id
  {
    assert O.Copies(RowsIn(s, a.id), a.id, s.world.accepted);
  }

  lemma HolderStepAt(s: System, a: Action, id: JobId, at: int -> bool, w: nat)
    requires O.Identity(s.world) && Enabled(s, a)
    ensures w in Holders(Next(s, a), id, at) <==>
      if Starts(s, a, id, at) && w == a.worker then true
      else w in Holders(s, id, at) && a != Restart && !((a.FailJob? || (a.CompleteJob? && Commits(s, a))) && w == a.worker)
    ensures Starts(s, a, id, at) ==> a.worker !in Holders(s, id, at)
  {
    hide O.Identity;
    if a.Claim? { ClaimedRecord(s, a); }
  }

  /** One comes with a claim; otherwise the holders of the job stay or go. */
  lemma HoldersStep(s: System, a: Action, id: JobId, at: int -> bool)
    requires O.Identity(s.world) && Enabled(s, a)
    ensures |Holders(Next(s, a), id, at)| <= |Holders(s, id, at)| + One(Starts(s, a, id, at))
    ensures (a.FailJob? || (a.CompleteJob? && Commits(s, a))) && a.worker in Holders(s, id, at) ==>
      |Holders(Next(s, a), id, at)| < |Holders(s, id, at)|
  {
    hide Next, Enabled, Holders, O.Identity, Commits, Starts;
    var h, h' := Holders(s, id, at), Holders(Next(s, a), id, at);
    if Starts(s, a, id, at) { StartsClaims(s, a, id, at); }
    forall w ensures w in h' ==> w in h || (Starts(s, a, id, at) && w == a.worker) {
      HolderStepAt(s, a, id, at, w);
    }
    if Starts(s, a, id, at) {
      Fewer(h', h + {a.worker});
    } else {
      Fewer(h', h);
      if (a.FailJob? || (a.CompleteJob? && Commits(s, a))) && a.worker in h {
        HolderStepAt(s, a, id, at, a.worker);
        Fewer(h', h - {a.worker});
      }
    }
  }

  lemma StartsClaims(s: System, a: Action, id: JobId, at: int -> bool)
    requires Starts(s, a, id, at)
    ensures a.Claim? && a.id == id
  {
  }

  lemma Fewer(a: set<nat>, b: set<nat>)
    requires forall w :: w in a ==> w in b
    ensures |a| <= |b|
  {
    assert a <= b && b == a + (b - a);
    assert |b| == |a| + |b - a|;
  }

  // ---- the row and the checker's copy ----

  /** When the row goes, the checker's copy of it is astray. */
  lemma RowGone(r: Rows, r': Rows, batch: seq<ProcessingJob>, id: JobId, at: int -> bool)
    requires r'.processing.None?
    requires forall b, c :: b in batch && c in batch && b.id == id && c.id == id ==> b == c
    ensures One(RowAt(r', at)) + One(Stray(r', batch, id, at)) <= One(RowAt(r, at)) + One(Stray(r, batch, id, at))
  {
    if Stray(r', batch, id, at) && !Stray(r, batch, id, at) {
      var b :| b in batch && b.id == id && at(b.phase.retryCount);
      assert r.processing == Some(b);
    }
  }

  lemma StrayKept(r: Rows, r': Rows, batch: seq<ProcessingJob>, batch': seq<ProcessingJob>, id: JobId, at: int -> bool)
    requires r'.processing == r.processing || r.processing.None?
    requires forall b :: b in batch' && b.id == id ==> b in batch
    ensures Stray(r', batch', id, at) ==> Stray(r, batch, id, at)
  {
  }

  lemma OneEntry(s: System, id: JobId)
    requires OrphansAreDistinct(s)
    ensures forall b, c :: b in s.orphanBatch && c in s.orphanBatch && b.id == id && c.id == id ==> b == c
  {
  }

  /** What a committed step does to the row in processing. */
  lemma ProcessingRow(r: Rows, step: O.Step)
    ensures var r' := O.RowsNext(r, step);
      && (O.RowStep(r, step).Some? && (step.Complete? || step.Fail?) ==> r'.processing.None?)
      && (O.RowStep(r, step).Some? && step.Dequeue? && r.enqueued.Some? ==>
            r.processing.None? && r'.processing == Some(L.ToProcessing(r.enqueued.value, step.now)))
      && (!(O.RowStep(r, step).Some? && (step.Complete? || step.Fail? || (step.Dequeue? && r.enqueued.Some?))) ==>
            r'.processing == r.processing)
  {
  }

  // ---- one action ----

  /** A worker ends its attempt. */
  lemma WorkerEnds(s: System, a: Action, id: JobId, at: int -> bool)
    requires O.Identity(s.world) && OrphansAreDistinct(s) && Enabled(s, a) && (a.FailJob? || a.CompleteJob?)
    ensures One(Fails(s, a, id, at)) + Threats(Next(s, a), id, at) <= Threats(s, id, at)
  {
    hide O.Identity, Stray, Holders;
    var step := StepOf(s, a).value;
    RowsAfterAction(s, a, id);
    HoldersStep(s, a, id, at);
    OneEntry(s, id);
    if O.Subject(step) == Some(id) {
      ProcessingRow(RowsIn(s, id), step);
      if O.RowStep(RowsIn(s, id), step).Some? {
        RowGone(RowsIn(s, id), RowsIn(Next(s, a), id), s.orphanBatch, id, at);
        if Fails(s, a, id, at) { FailerHolds(s, a, id, at); }
      }
    }
  }

  lemma FailerHolds(s: System, a: Action, id: JobId, at: int -> bool)
    requires Enabled(s, a) && (a.FailJob? || a.CompleteJob?) && Fails(s, a, id, at)
    ensures a.worker in Holders(s, id, at)
  {
  }

  /** What is left of the batch has no other entry for the job at its head. */
  lemma RestOfBatch(s: System, a: Action, b: ProcessingJob)
    requires OrphansAreDistinct(s) && Enabled(s, a) && a.OrphanNext? && b in Next(s, a).orphanBatch
    ensures b in s.orphanBatch && b.id != s.orphanBatch[0].id
  {
    var batch := s.orphanBatch;
    var i :| 0 <= i < |batch[1..]| && batch[1..][i] == b;
    assert batch[i + 1] == b;
  }

  /** The entry that the checker fails is the row, or astray. */
  lemma HeadIsAThreat(r: Rows, batch: seq<ProcessingJob>, id: JobId, at: int -> bool)
    requires batch != [] && batch[0].id == id && at(batch[0].phase.retryCount)
    ensures RowAt(r, at) || Stray(r, batch, id, at)
  {
    assert batch[0] in batch;
  }

  /** The checker comes to an entry of its batch. */
  lemma CheckerFails(s: System, a: Action, id: JobId, at: int -> bool)
    requires O.Identity(s.world) && OrphansAreDistinct(s) && Enabled(s, a) && a.OrphanNext?
    ensures One(Fails(s, a, id, at)) + Threats(Next(s, a), id, at) <= Threats(s, id, at)
  {
    hide O.Identity, Holders, O.RowStep, OrphansAreDistinct, O.Next;
    var r, r', batch := RowsIn(s, id), RowsIn(Next(s, a), id), s.orphanBatch;
    RowsAfterAction(s, a, id);
    HoldersStep(s, a, id, at);
    forall b | b in Next(s, a).orphanBatch ensures b in batch && b.id != batch[0].id { RestOfBatch(s, a, b); }
    if batch[0].id != id {
      StrayKept(r, r', batch, Next(s, a).orphanBatch, id, at);
    } else if Commits(s, a) {
      ProcessingRow(r, StepOf(s, a).value);
      if at(batch[0].phase.retryCount) { HeadIsAThreat(r, batch, id, at); }
    }
  }

  /** A claim, or nothing that ends or begins an attempt. */
  lemma OthersStep(s: System, a: Action, id: JobId, at: int -> bool)
    requires O.Identity(s.world) && Enabled(s, a) && !a.FailJob? && !a.CompleteJob? && !a.OrphanNext?
    ensures !Fails(s, a, id, at)
    ensures Threats(Next(s, a), id, at) <= Threats(s, id, at) + 2 * One(Starts(s, a, id, at))
  {
    hide O.Identity, Holders;
    var r, r' := RowsIn(s, id), RowsIn(Next(s, a), id);
    RowsAfterAction(s, a, id);
    HoldersStep(s, a, id, at);
    if a.ReadOrphans? {
      SelectedAreRows(s, a, id, at);
    } else {
      if StepOf(s, a).Some? && O.Subject(StepOf(s, a).value) == Some(id) {
        ProcessingRow(r, StepOf(s, a).value);
        if a.Claim? { ClaimedRecord(s, a); }
      }
      StrayKept(r, r', s.orphanBatch, Next(s, a).orphanBatch, id, at);
    }
  }

  lemma SelectedAreRows(s: System, a: Action, id: JobId, at: int -> bool)
    requires O.Identity(s.world) && Enabled(s, a) && a.ReadOrphans?
    ensures !Stray(RowsIn(Next(s, a), id), Next(s, a).orphanBatch, id, at)
  {
    forall b | b in a.stale && b.id == id ensures RowsIn(s, id).processing == Some(b) {
      var i :| 0 <= i < |a.stale| && a.stale[i] == b;
    }
  }

  lemma ThreatsStep(s: System, a: Action, id: JobId, at: int -> bool)
    requires O.Identity(s.world) && OrphansAreDistinct(s) && Enabled(s, a)
    ensures One(Fails(s, a, id, at)) + Threats(Next(s, a), id, at) <= Threats(s, id, at) + 2 * One(Starts(s, a, id, at))
  {
    hide Enabled, Next, Threats, Fails, Starts, O.Identity;
    if a.FailJob? || a.CompleteJob? {
      WorkerEnds(s, a, id, at);
    } else if a.OrphanNext? {
      CheckerFails(s, a, id, at);
    } else {
      OthersStep(s, a, id, at);
    }
  }

  /** Every attempt that was started is failed at most twice, whoever holds a copy of it. */
  lemma {:induction false} FailsAreBounded(run: seq<Action>, id: JobId, at: int -> bool)
    requires IsRun(run)
    ensures OrphansAreDistinct(After(run))
    ensures FailsIn(run, id, at) + Threats(After(run), id, at) <= 2 * StartsIn(run, id, at)
  {
    if run == [] {
      assert Holders(START, id, at) == {};
    } else {
      hide Enabled, Next, Threats, Fails, Starts;
      var before := run[..|run| - 1];
      FailsAreBounded(before, id, at);
      Refinement.EveryRunIsSound(before);
      DistinctStep(After(before), run[|run| - 1]);
      ThreatsStep(After(before), run[|run| - 1], id, at);
    }
  }

  // ---- a failure leads to at most one more attempt ----

  function Level(k: int): int -> bool {
    l => l == k
  }

  /** The records that can still lead to an attempt with retry count `k`. */
  function Stock(r: Rows, k: int): nat {
    One(r.scheduled.Some? && k == 0)
    + One(r.enqueued.Some? && r.enqueued.value.phase.retryCount == k)
    + One(r.failed.Some? && r.failed.value.phase.retryCount == k)
  }

  lemma StockRow(r: Rows, step: O.Step, k: int)
    requires step.Accept? ==> r.scheduled.None? && r.enqueued.None? && r.failed.None?
    requires step.MoveScheduled? ==> r.scheduled.Some?
    ensures Stock(O.RowsNext(r, step), k)
         + One(step.Dequeue? && O.RowStep(r, step).Some? && r.enqueued.Some? && r.enqueued.value.phase.retryCount == k)
      <= Stock(r, k) + One(step.Accept? && k == 0)
         + One(step.Fail? && O.RowStep(r, step).Some? && step.held.phase.retryCount == k - 1)
  {
  }

  /** A submitted job is new, and what the mover holds is in the schedule. */
  lemma SubjectOf(s: System, a: Action, id: JobId)
    requires O.Identity(s.world) && Mover.BatchIsCurrent(s) && Enabled(s, a)
    requires StepOf(s, a).Some? && O.Subject(StepOf(s, a).value) == Some(id)
    ensures var r, step := RowsIn(s, id), StepOf(s, a).value;
      && (step.Accept? ==> r.scheduled.None? && r.enqueued.None? && r.failed.None?)
      && (step.MoveScheduled? ==> r.scheduled.Some?)
  {
    assert O.Copies(RowsIn(s, id), id, s.world.accepted);
  }

  lemma StockStep(s: System, a: Action, id: JobId, k: int)
    requires O.Identity(s.world) && Mover.BatchIsCurrent(s) && Enabled(s, a)
    ensures Stock(RowsIn(Next(s, a), id), k) + One(Starts(s, a, id, Level(k)))
      <= Stock(RowsIn(s, id), k) + One(a.Submit? && a.job.id == id && k == 0) + One(Fails(s, a, id, Level(k - 1)))
  {
    hide Stock, O.Identity, Mover.BatchIsCurrent, O.RowStep, O.RowsNext, O.Next;
    RowsAfterAction(s, a, id);
    var r := RowsIn(s, id);
    if StepOf(s, a).Some? && O.Subject(StepOf(s, a).value) == Some(id) {
      SubjectOf(s, a, id);
      StockRow(r, StepOf(s, a).value, k);
    }
  }

  lemma NoFailsBelowZero(run: seq<Action>, a: Action, id: JobId)
    requires IsRun(run) && Enabled(After(run), a)
    ensures !Fails(After(run), a, id, Level(-1))
  {
    Refinement.RunsRefineTheOpenRegime(run);
    Refinement.EveryRunIsSound(run);
    var s := After(run);
    if StepOf(s, a).Some? && StepOf(s, a).value.Fail? {
      Refinement.StepIsOpen(s, a);
      var held := StepOf(s, a).value.held;
      assert O.Reached(s.world.claims, held.id, held.phase.retryCount);
    }
  }

  /** Each failure at the retry count before leads to at most one attempt, and acceptance to one at zero. */
  lemma {:induction false} StartsAreFed(run: seq<Action>, id: JobId, k: nat)
    requires IsRun(run)
    ensures Stock(RowsIn(After(run), id), k) + StartsIn(run, id, Level(k))
      <= if k == 0 then One(id in After(run).world.accepted) else FailsIn(run, id, Level(k - 1))
  {
    if run != [] {
      var before, a := run[..|run| - 1], run[|run| - 1];
      StartsAreFed(before, id, k);
      Refinement.EveryRunIsSound(before);
      Mover.BatchesAreCurrent(before);
      StockStep(After(before), a, id, k);
      if k == 0 { NoFailsBelowZero(before, a, id); }
    }
  }

  // ---- the bounds ----

  function Pow2(k: nat): nat {
    if k == 0 then 1 else 2 * Pow2(k - 1)
  }

  /** A job starts at most 2^k times with retry count k, in every run. */
  lemma {:induction false} StartsDoubleAtMost(run: seq<Action>, id: JobId, k: nat)
    requires IsRun(run)
    ensures StartsIn(run, id, Level(k)) <= Pow2(k)
    decreases k
  {
    StartsAreFed(run, id, k);
    if k > 0 {
      FailsAreBounded(run, id, Level(k - 1));
      StartsDoubleAtMost(run, id, k - 1);
    }
  }

  function Any(): int -> bool {
    l => true
  }

  /** The starts with the first `n` retry counts. */
  function StartsBelow(run: seq<Action>, id: JobId, n: nat): nat {
    if n == 0 then 0 else StartsBelow(run, id, n - 1) + StartsIn(run, id, Level(n - 1))
  }

  lemma {:induction false} StartsBelowStep(run: seq<Action>, id: JobId, n: nat)
    requires run != []
    ensures var s, a := After(run[..|run| - 1]), run[|run| - 1];
      StartsBelow(run, id, n) == StartsBelow(run[..|run| - 1], id, n)
        + One(Starts(s, a, id, Any()) && 0 <= s.world.tables.enqueued[id].phase.retryCount < n)
    decreases n
  {
    hide Commits, Next, After;
    if n > 0 { StartsBelowStep(run, id, n - 1); }
  }

  lemma {:induction false} AllStartsAreBelow(run: seq<Action>, id: JobId)
    requires IsRun(run)
    ensures StartsIn(run, id, Any()) == StartsBelow(run, id, L.DEFAULT_MAX_RETRY_COUNT + 1)
  {
    if run == [] {
      NoStarts(id, L.DEFAULT_MAX_RETRY_COUNT + 1);
    } else {
      var before := run[..|run| - 1];
      AllStartsAreBelow(before, id);
      StartsBelowStep(run, id, L.DEFAULT_MAX_RETRY_COUNT + 1);
      Refinement.EveryRunIsSound(before);
      assert O.AttemptsAt(RowsIn(After(before), id), id, After(before).world.claims);
    }
  }

  lemma {:induction false} NoStarts(id: JobId, n: nat)
    ensures StartsBelow([], id, n) == 0
    decreases n
  {
    if n > 0 { NoStarts(id, n - 1); }
  }

  lemma {:induction false} StartsBelowBounded(run: seq<Action>, id: JobId, n: nat)
    requires IsRun(run)
    ensures StartsBelow(run, id, n) < Pow2(n)
    decreases n
  {
    if n > 0 {
      StartsBelowBounded(run, id, n - 1);
      StartsDoubleAtMost(run, id, n - 1);
    }
  }

  /** No job starts more than 2^20 - 1 times, whatever happens. */
  lemma StartsAreFinite(run: seq<Action>, id: JobId)
    requires IsRun(run)
    ensures StartsIn(run, id, Any()) < Pow2(20)
  {
    AllStartsAreBelow(run, id);
    StartsBelowBounded(run, id, 20);
  }

  /** The action changes a record of the job in one of the five tables. */
  predicate Changes(s: System, a: Action, id: JobId) {
    RowsIn(s, id).(heartbeat := None) != RowsIn(Next(s, a), id).(heartbeat := None)
  }

  function ChangesIn(run: seq<Action>, id: JobId): nat {
    if run == [] then 0
    else ChangesIn(run[..|run| - 1], id) + One(Changes(After(run[..|run| - 1]), run[|run| - 1], id))
  }

  /** The records that pay for changes to come. */
  function Credit(r: Rows): nat {
    One(r.scheduled.Some?) + One(r.failed.Some?) + One(r.processed.None?)
  }

  lemma ChangesRow(r: Rows, step: O.Step)
    requires step.Accept? ==> r.scheduled.None? && r.enqueued.None? && r.failed.None?
    requires step.MoveScheduled? ==> r.scheduled.Some?
    ensures var r' := O.RowsNext(r, step);
      One(r.(heartbeat := None) != r'.(heartbeat := None)) + Credit(r')
      <= Credit(r) + 2 * One(step.Accept?) + 2 * One(step.Fail? && O.RowStep(r, step).Some?)
         + One(step.Dequeue? && O.RowStep(r, step).Some? && r.enqueued.Some?)
  {
  }

  lemma ChangesStep(s: System, a: Action, id: JobId)
    requires O.Identity(s.world) && Mover.BatchIsCurrent(s) && Enabled(s, a)
    ensures One(Changes(s, a, id)) + Credit(RowsIn(Next(s, a), id))
      <= Credit(RowsIn(s, id)) + 2 * One(a.Submit? && a.job.id == id)
         + 2 * One(Fails(s, a, id, Any())) + One(Starts(s, a, id, Any()))
  {
    hide Credit, O.Identity, Mover.BatchIsCurrent, O.RowStep, O.RowsNext, O.Next;
    RowsAfterAction(s, a, id);
    var r := RowsIn(s, id);
    if StepOf(s, a).Some? && O.Subject(StepOf(s, a).value) == Some(id) {
      SubjectOf(s, a, id);
      ChangesRow(r, StepOf(s, a).value);
    }
  }

  lemma {:induction false} ChangesArePaid(run: seq<Action>, id: JobId)
    requires IsRun(run)
    ensures ChangesIn(run, id) + Credit(RowsIn(After(run), id))
      <= 1 + 2 * One(id in After(run).world.accepted) + 2 * FailsIn(run, id, Any()) + StartsIn(run, id, Any())
  {
    if run != [] {
      var before, a := run[..|run| - 1], run[|run| - 1];
      ChangesArePaid(before, id);
      Refinement.EveryRunIsSound(before);
      Mover.BatchesAreCurrent(before);
      hide Credit, Mover.BatchIsCurrent, Fails, Starts, Changes;
      ChangesStep(After(before), a, id);
    }
  }

  /** Every job comes to rest: its records change at most 5 * 2^20 - 2 times, however long the run is. */
  lemma ChangesAreFinite(run: seq<Action>, id: JobId)
    requires IsRun(run)
    ensures ChangesIn(run, id) <= 5 * Pow2(20) - 2
  {
    ChangesArePaid(run, id);
    FailsAreBounded(run, id, Any());
    StartsAreFinite(run, id);
  }
}
