/** The order in which the single processor's mover takes jobs out of the schedule, in every run. */
module ScheduleOrder {
  import opened Jobs
  import opened Storage
  import opened JobRows
  import L = Lifecycle
  import O = OpenRegime
  import opened SingleProcessor
  import Refinement
  import opened Mover
  import opened Ways

  // ---- oldest first ----

  ghost predicate SortedByTime(batch: seq<ScheduledJob>) {
    forall i, j :: 0 <= i < j < |batch| ==> batch[i].phase.enqueueAt <= batch[j].phase.enqueueAt
  }

  /** A scheduled job that is older than one the mover holds is held by the mover too. */
  ghost predicate OldestFirst(s: System) {
    && SortedByTime(s.scheduledBatch)
    && forall id, i :: id in s.world.tables.scheduled && 0 <= i < |s.scheduledBatch| ==>
         s.scheduledBatch[i].phase.enqueueAt <= s.world.tables.scheduled[id].phase.enqueueAt
         || s.world.tables.scheduled[id] in s.scheduledBatch
  }

  predicate IntoSchedule(a: Action) {
    a.Submit? && a.job.phase.enqueueAt >= a.checkedAt
  }

  /** The storage lists due jobs oldest first, as Memory does, and no job is inserted into the schedule
      so late that a job behind it is already in the mover's hands. */
  ghost predicate KeepsUp(s: System, a: Action) {
    && (a.ReadScheduled? ==> SortedByTime(a.batch))
    && (IntoSchedule(a) ==> forall b :: b in s.scheduledBatch ==> b.phase.enqueueAt <= a.job.phase.enqueueAt)
  }

  ghost predicate IsPromptRun(run: seq<Action>) {
    run != [] ==>
      && IsPromptRun(run[..|run| - 1])
      && Enabled(After(run[..|run| - 1]), run[|run| - 1])
      && KeepsUp(After(run[..|run| - 1]), run[|run| - 1])
  }

  lemma NewScheduledRow(r: Rows, step: O.Step)
    ensures var r' := O.RowsNext(r, step); r'.scheduled.Some? ==>
      r'.scheduled == r.scheduled
      || (step.Accept? && r'.scheduled == Some(step.job) && step.job.phase.enqueueAt >= step.checkedAt)
  {
  }

  lemma ScheduledRowBefore(s: System, a: Action, id: JobId)
    requires O.Identity(s.world) && Enabled(s, a) && id in Next(s, a).world.tables.scheduled
    ensures var row := Next(s, a).world.tables.scheduled[id];
      || (id in s.world.tables.scheduled && s.world.tables.scheduled[id] == row)
      || (IntoSchedule(a) && row == a.job && id !in s.world.accepted)
  {
    hide O.RowStep, O.Identity;
    RowsAfterAction(s, a, id);
    assert RowsOf(NextWorld(s, a).tables, id).scheduled == Some(Next(s, a).world.tables.scheduled[id]);
    if StepOf(s, a).Some? && O.Subject(StepOf(s, a).value) == Some(id) {
      NewScheduledRow(RowsIn(s, id), StepOf(s, a).value);
    }
  }

  /** A committed move takes the head of the batch out of scheduled. */
  lemma MovedIsGone(s: System, a: Action)
    requires O.Identity(s.world) && Enabled(s, a) && a.MoveNext? && Commits(s, a)
    ensures s.scheduledBatch[0].id !in Next(s, a).world.tables.scheduled
  {
    var id := s.scheduledBatch[0].id;
    RowsAfterAction(s, a, id);
    assert RowsOf(NextWorld(s, a).tables, id).scheduled == None;
  }

  lemma KeptInBatch(s: System, a: Action, id: JobId)
    requires O.Identity(s.world) && BatchIsCurrent(s) && Enabled(s, a) && !a.ReadScheduled?
    requires Next(s, a).scheduledBatch != []
    requires id in s.world.tables.scheduled && id in Next(s, a).world.tables.scheduled
    requires s.world.tables.scheduled[id] in s.scheduledBatch
    ensures s.world.tables.scheduled[id] in Next(s, a).scheduledBatch
  {
    if a.MoveNext? {
      MovedIsGone(s, a);
      var k :| 0 <= k < |s.scheduledBatch| && s.scheduledBatch[k] == s.world.tables.scheduled[id];
      assert O.Copies(RowsIn(s, id), id, s.world.accepted);
      assert k > 0;
      assert Next(s, a).scheduledBatch[k - 1] == s.world.tables.scheduled[id];
    }
  }

  lemma OldestFirstAt(s: System, a: Action, id: JobId, i: nat)
    requires O.Identity(s.world) && BatchIsCurrent(s) && OldestFirst(s) && Enabled(s, a) && KeepsUp(s, a)
    requires id in Next(s, a).world.tables.scheduled && i < |Next(s, a).scheduledBatch|
    ensures Next(s, a).scheduledBatch[i].phase.enqueueAt <= Next(s, a).world.tables.scheduled[id].phase.enqueueAt
            || Next(s, a).world.tables.scheduled[id] in Next(s, a).scheduledBatch
  {
    hide O.Identity, O.Next;
    ScheduledRowBefore(s, a, id);
    if a.ReadScheduled? {
      assert a.batch[i].phase.enqueueAt <= s.now;
    } else {
      var j := if a.MoveNext? then i + 1 else i;
      assert Next(s, a).scheduledBatch[i] == s.scheduledBatch[j];
      if id in s.world.tables.scheduled && s.world.tables.scheduled[id] in s.scheduledBatch {
        KeptInBatch(s, a, id);
      }
    }
  }

  lemma SortedBatchStep(s: System, a: Action)
    requires Enabled(s, a) && SortedByTime(s.scheduledBatch) && (a.ReadScheduled? ==> SortedByTime(a.batch))
    ensures SortedByTime(Next(s, a).scheduledBatch)
  {
  }

  lemma OldestFirstStep(s: System, a: Action)
    requires O.Identity(s.world) && BatchIsCurrent(s) && OldestFirst(s) && Enabled(s, a) && KeepsUp(s, a)
    ensures OldestFirst(Next(s, a))
  {
    SortedBatchStep(s, a);
    forall id, i | id in Next(s, a).world.tables.scheduled && 0 <= i < |Next(s, a).scheduledBatch|
      ensures Next(s, a).scheduledBatch[i].phase.enqueueAt <= Next(s, a).world.tables.scheduled[id].phase.enqueueAt
              || Next(s, a).world.tables.scheduled[id] in Next(s, a).scheduledBatch
    {
      OldestFirstAt(s, a, id, i);
    }
  }

  lemma {:induction false} OldestComeFirst(run: seq<Action>)
    requires IsPromptRun(run)
    ensures IsRun(run) && BatchIsCurrent(After(run)) && OldestFirst(After(run))
  {
    if run != [] {
      var before := run[..|run| - 1];
      OldestComeFirst(before);
      Refinement.EveryRunIsSound(before);
      BatchStep(After(before), run[|run| - 1]);
      OldestFirstStep(After(before), run[|run| - 1]);
    }
  }

  lemma SubmittedIsNotHeld(s: System, a: Action)
    requires O.Identity(s.world) && BatchIsCurrent(s) && Enabled(s, a) && IntoSchedule(a)
    ensures forall b :: b in s.scheduledBatch ==> b.id != a.job.id
  {
    forall k | 0 <= k < |s.scheduledBatch| ensures s.scheduledBatch[k].id in s.world.accepted {
      assert O.Copies(RowsIn(s, s.scheduledBatch[k].id), s.scheduledBatch[k].id, s.world.accepted);
    }
  }

  lemma SubmittedIsScheduled(s: System, a: Action)
    requires O.Identity(s.world) && Enabled(s, a) && IntoSchedule(a)
    ensures a.job.id in Next(s, a).world.tables.scheduled && Next(s, a).world.tables.scheduled[a.job.id] == a.job
    ensures Next(s, a).scheduledBatch == s.scheduledBatch
  {
    assert O.Copies(RowsIn(s, a.job.id), a.job.id, s.world.accepted);
    assert a.job.id !in s.world.tables.scheduled;
  }

  // ---- two jobs ----

  lemma LeavesAsHead(s: System, a: Action, y: JobId)
    requires O.Identity(s.world) && BatchIsCurrent(s) && Enabled(s, a)
    requires y in s.world.tables.scheduled && y !in Next(s, a).world.tables.scheduled
    ensures s.scheduledBatch != [] && s.scheduledBatch[0] == s.world.tables.scheduled[y]
  {
    if a.MoveNext? && s.scheduledBatch[0].id == y {
      assert RowsIn(s, y).scheduled == Some(s.scheduledBatch[0]);
    } else {
      ScheduledPersists(s, a, y);
    }
  }

  lemma HeadIsOldest(s: System, x: JobId)
    requires OldestFirst(s) && s.scheduledBatch != [] && x in s.world.tables.scheduled
    ensures s.scheduledBatch[0].phase.enqueueAt <= s.world.tables.scheduled[x].phase.enqueueAt
  {
    if s.world.tables.scheduled[x] in s.scheduledBatch {
      var k :| 0 <= k < |s.scheduledBatch| && s.scheduledBatch[k] == s.world.tables.scheduled[x];
    }
  }

  /** A job leaves the schedule only when no strictly earlier job is left in it. */
  lemma LeavesInOrder(s: System, a: Action, x: JobId, y: JobId)
    requires O.Identity(s.world) && BatchIsCurrent(s) && OldestFirst(s) && Enabled(s, a)
    requires x in s.world.tables.scheduled && y in s.world.tables.scheduled
    requires s.world.tables.scheduled[x].phase.enqueueAt < s.world.tables.scheduled[y].phase.enqueueAt
    ensures y in Next(s, a).world.tables.scheduled
  {
    if y !in Next(s, a).world.tables.scheduled {
      LeavesAsHead(s, a, y);
      HeadIsOldest(s, x);
    }
  }

  lemma OrderStep(s: System, a: Action, x: JobId, y: JobId)
    requires O.Identity(s.world) && BatchIsCurrent(s) && OldestFirst(s) && Enabled(s, a) && x in s.world.accepted
    requires x in s.world.tables.scheduled ==>
      y in s.world.tables.scheduled
      && s.world.tables.scheduled[x].phase.enqueueAt < s.world.tables.scheduled[y].phase.enqueueAt
    requires x in Next(s, a).world.tables.scheduled
    ensures x in s.world.tables.scheduled && y in Next(s, a).world.tables.scheduled
    ensures Next(s, a).world.tables.scheduled[x] == s.world.tables.scheduled[x]
    ensures Next(s, a).world.tables.scheduled[y] == s.world.tables.scheduled[y]
  {
    ScheduledRowBefore(s, a, x);
    LeavesInOrder(s, a, x, y);
    assert O.Copies(RowsIn(s, y), y, s.world.accepted);
    ScheduledRowBefore(s, a, y);
  }

  /** Of two jobs that were in the schedule together, the strictly earlier one enters its queue first,
      also when a refused transaction ends a batch midway. */
  lemma {:induction false} EarlierEntersFirst(run: seq<Action>, n: nat, x: JobId, y: JobId)
    requires IsPromptRun(run) && n <= |run|
    requires var t := After(run[..n]).world.tables;
      x in t.scheduled && y in t.scheduled && t.scheduled[x].phase.enqueueAt < t.scheduled[y].phase.enqueueAt
    ensures var t, t0 := After(run).world.tables, After(run[..n]).world.tables;
      && x in After(run).world.accepted
      && (x in t.scheduled ==> y in t.scheduled && t.scheduled[x] == t0.scheduled[x] && t.scheduled[y] == t0.scheduled[y])
  {
    OldestComeFirst(run);
    Refinement.EveryRunIsSound(run);
    if n == |run| {
      assert run[..n] == run;
      assert O.Copies(RowsIn(After(run), x), x, After(run).world.accepted);
    } else {
      var before, a := run[..|run| - 1], run[|run| - 1];
      assert before[..n] == run[..n];
      EarlierEntersFirst(before, n, x, y);
      OldestComeFirst(before);
      Refinement.EveryRunIsSound(before);
      if x in After(run).world.tables.scheduled { OrderStep(After(before), a, x, y); }
    }
  }

  // ---- when an insert is overtaken ----

  /** The actions lead from one state to the other, and keep up. */
  ghost predicate Prompt(s: System, rest: seq<Action>, s': System) {
    Leads(s, rest, s', (x, a) => KeepsUp(x, a))
  }

  lemma {:induction false} PromptIsRun(run: seq<Action>, rest: seq<Action>, s': System)
    requires IsPromptRun(run) && Prompt(After(run), rest, s')
    ensures IsPromptRun(run + rest) && After(run + rest) == s'
    decreases |rest|
  {
    hide Enabled, Next, KeepsUp;
    if rest == [] {
      assert run + rest == run;
    } else {
      var more := run + [rest[0]];
      assert more[..|run|] == run && more[|run|] == rest[0];
      PromptIsRun(more, rest[1..], s');
      assert more + rest[1..] == run + rest;
    }
  }

  /** Of any two jobs in the schedule the strictly earlier one leaves first, whatever happens that keeps up. */
  ghost predicate StaysInOrder(s: System) {
    forall rest, end, x, y :: Prompt(s, rest, end) ==> LeavesFirst(s.world.tables.scheduled, end.world.tables.scheduled, x, y)
  }

  predicate LeavesFirst(before: map<JobId, ScheduledJob>, after: map<JobId, ScheduledJob>, x: JobId, y: JobId) {
    x in before && y in before && before[x].phase.enqueueAt < before[y].phase.enqueueAt && x in after ==> y in after
  }

  lemma PromptInsertStaysInOrder(run: seq<Action>, a: Action)
    requires IsPromptRun(run) && Enabled(After(run), a) && KeepsUp(After(run), a)
    ensures StaysInOrder(Next(After(run), a))
  {
    hide Enabled, Next, KeepsUp;
    var longer := run + [a];
    assert longer[..|run|] == run && longer[|run|] == a;
    var s := After(longer);
    forall rest, end, x, y | Prompt(s, rest, end)
      ensures LeavesFirst(s.world.tables.scheduled, end.world.tables.scheduled, x, y)
    {
      PromptIsRun(longer, rest, end);
      assert (longer + rest)[..|longer|] == longer;
      if !LeavesFirst(s.world.tables.scheduled, end.world.tables.scheduled, x, y) {
        EarlierEntersFirst(longer + rest, |longer|, x, y);
      }
    }
  }

  /** The first `n` jobs of the batch are out of the schedule, and no other. */
  ghost predicate MovedOut(batch: seq<ScheduledJob>, n: nat, before: set<JobId>, after: set<JobId>) {
    && n <= |batch| && after <= before
    && (forall i :: 0 <= i < n ==> batch[i].id !in after)
    && (forall id :: id in before && (forall i :: 0 <= i < n ==> batch[i].id != id) ==> id in after)
  }

  lemma MovedOutStep(batch: seq<ScheduledJob>, n: nat, before: set<JobId>, after: set<JobId>)
    requires batch != [] && MovedOut(batch[1..], n, before - {batch[0].id}, after)
    ensures MovedOut(batch, n + 1, before, after)
  {
    forall i | 0 <= i < n + 1 ensures batch[i].id !in after {
      assert i > 0 ==> batch[1..][i - 1] == batch[i];
    }
    forall id | id in before && forall i :: 0 <= i < n + 1 ==> batch[i].id != id ensures id in after {
      assert batch[0].id != id;
      forall i | 0 <= i < n ensures batch[1..][i].id != id {
        assert batch[1..][i] == batch[i + 1];
      }
    }
  }

  /** The mover takes the next `n` jobs of its batch out of the schedule, and no other. */
  lemma {:induction false} MovesOn(run: seq<Action>, n: nat) returns (rest: seq<Action>, end: System)
    requires IsRun(run) && n <= |After(run).scheduledBatch|
    ensures Prompt(After(run), rest, end)
    ensures MovedOut(After(run).scheduledBatch, n, After(run).world.tables.scheduled.Keys, end.world.tables.scheduled.Keys)
    decreases n
  {
    rest, end := [], After(run);
    if n > 0 {
      hide Enabled, Next, KeepsUp, MovedOut;
      var longer := run + [MoveNext(true)];
      assert longer[..|run|] == run && longer[|run|] == MoveNext(true);
      MovesOne(run);
      var later;
      later, end := MovesOn(longer, n - 1);
      rest := [MoveNext(true)] + later;
      assert rest[1..] == later;
      MovedOutStep(After(run).scheduledBatch, n - 1, After(run).world.tables.scheduled.Keys, end.world.tables.scheduled.Keys);
    }
  }

  lemma MovesOne(run: seq<Action>)
    requires IsRun(run) && After(run).scheduledBatch != []
    ensures Enabled(After(run), MoveNext(true)) && KeepsUp(After(run), MoveNext(true))
    ensures var s := After(run); var s' := Next(s, MoveNext(true));
      && s'.scheduledBatch == s.scheduledBatch[1..]
      && s'.world.tables.scheduled.Keys == s.world.tables.scheduled.Keys - {s.scheduledBatch[0].id}
  {
    var s := After(run);
    MoveCommits(run);
    Refinement.EveryRunIsSound(run);
    MovedIsGone(s, MoveNext(true));
    forall id | id != s.scheduledBatch[0].id
      ensures id in Next(s, MoveNext(true)).world.tables.scheduled <==> id in s.world.tables.scheduled
    {
      RowsAfterAction(s, MoveNext(true), id);
      assert id in s.world.tables.scheduled <==> RowsIn(s, id).scheduled.Some?;
      assert id in Next(s, MoveNext(true)).world.tables.scheduled <==> RowsOf(NextWorld(s, MoveNext(true)).tables, id).scheduled.Some?;
    }
  }

  /** An insert into the schedule keeps every two jobs in order, whatever follows that keeps up, exactly when
      no later job is in the mover's hands; the comparison with the clock was made earlier, so it may come late. */
  lemma LateInsertIff(run: seq<Action>, a: Action)
    requires IsPromptRun(run) && Enabled(After(run), a) && IntoSchedule(a)
    ensures KeepsUp(After(run), a) <==> StaysInOrder(Next(After(run), a))
  {
    if KeepsUp(After(run), a) {
      PromptInsertStaysInOrder(run, a);
    } else {
      LateInsertIsPassed(run, a);
    }
  }

  lemma LateInsertIsPassed(run: seq<Action>, a: Action)
    requires IsPromptRun(run) && Enabled(After(run), a) && IntoSchedule(a) && !KeepsUp(After(run), a)
    ensures !StaysInOrder(Next(After(run), a))
  {
    hide Enabled, Next, O.Identity;
    var s, longer := After(run), run + [a];
    assert longer[..|run|] == run && longer[|run|] == a;
    OldestComeFirst(run);
    Refinement.EveryRunIsSound(run);
    SubmittedIsScheduled(s, a);
    SubmittedIsNotHeld(s, a);
    var i :| 0 <= i < |s.scheduledBatch| && s.scheduledBatch[i].phase.enqueueAt > a.job.phase.enqueueAt;
    var rest, end := MovesOn(longer, i + 1);
    assert s.scheduledBatch[i].id !in end.world.tables.scheduled.Keys;
    PassedBy(s, a, i, rest, end);
  }

  lemma PassedBy(s: System, a: Action, i: nat, rest: seq<Action>, end: System)
    requires O.Identity(s.world) && BatchIsCurrent(s) && Enabled(s, a) && IntoSchedule(a) && i < |s.scheduledBatch|
    requires s.scheduledBatch[i].phase.enqueueAt > a.job.phase.enqueueAt && Prompt(Next(s, a), rest, end)
    requires s.scheduledBatch[i].id !in end.world.tables.scheduled && a.job.id in end.world.tables.scheduled
    ensures !StaysInOrder(Next(s, a))
  {
    var y := s.scheduledBatch[i];
    SubmittedIsScheduled(s, a);
    assert RowsIn(s, y.id).scheduled == Some(y);
    ScheduledPersists(s, a, y.id);
    assert RowsIn(Next(s, a), y.id).scheduled == Some(y);
    assert !LeavesFirst(Next(s, a).world.tables.scheduled, end.world.tables.scheduled, a.job.id, y.id);
  }

  // ---- a run in which a late insert is overtaken ----

  const EARLIER: ScheduledJob := Job("x", "mail", "default", None, 0, Schedule(0))
  const LATER: ScheduledJob := Job("y", "mail", "default", None, 0, Schedule(1))

  function InSchedule(rows: map<JobId, ScheduledJob>, queued: map<JobId, EnqueuedJob>, accepted: map<JobId, Origin>,
                      now: Time, batch: seq<ScheduledJob>, snapshots: set<ScheduledJob>): System {
    START.(world := O.World(EMPTY.(scheduled := rows, enqueued := queued), accepted, snapshots, {}, {}),
           now := now, scheduledBatch := batch)
  }

  const ONE: map<JobId, Origin> := map["y" := OriginOf(LATER)]
  const TWO: map<JobId, Origin> := ONE["x" := OriginOf(EARLIER)]
  const A1 := InSchedule(map["y" := LATER], map[], ONE, 0, [], {LATER})
  const A2 := InSchedule(map["y" := LATER], map[], ONE, 2, [], {LATER})
  const A3 := InSchedule(map["y" := LATER], map[], ONE, 2, [LATER], {LATER})
  const A4 := InSchedule(map["y" := LATER, "x" := EARLIER], map[], TWO, 2, [LATER], {LATER, EARLIER})
  const A5 := InSchedule(map["x" := EARLIER], map["y" := L.ToEnqueued(LATER, 2)], TWO, 2, [], {LATER, EARLIER})

  lemma SubmitsLater() ensures Enabled(START, Submit(LATER, 0, 0)) && Next(START, Submit(LATER, 0, 0)) == A1 {
    assert O.Body(EMPTY, O.Accept(LATER, 0, 0, 0)) == Ok(A1.world.tables);
    assert O.Next(O.START, O.Accept(LATER, 0, 0, 0)) == A1.world;
  }

  lemma ReadsLater() ensures Enabled(A2, ReadScheduled([LATER])) && Next(A2, ReadScheduled([LATER])) == A3 {
  }

  lemma SubmitsEarlier() ensures Enabled(A3, Submit(EARLIER, 0, 0)) && Next(A3, Submit(EARLIER, 0, 0)) == A4 {
    var t := A4.world.tables;
    assert O.Body(A3.world.tables, O.Accept(EARLIER, 0, 0, 2)) == Ok(t);
    assert t.scheduled["x"] == EARLIER && t.scheduled["y"] == LATER;
    assert t.scheduled.Values == {LATER, EARLIER};
    assert O.Next(A3.world, O.Accept(EARLIER, 0, 0, 2)) == A4.world;
  }

  lemma MovesLater() ensures Enabled(A4, MoveNext(true)) && Next(A4, MoveNext(true)) == A5 {
    assert O.Body(A4.world.tables, O.MoveScheduled(LATER, 2)) == Ok(A5.world.tables);
    assert O.Next(A4.world, O.MoveScheduled(LATER, 2)) == A5.world;
  }

  const LATE_INSERT: seq<Action> :=
    [] + [Submit(LATER, 0, 0)] + [Pass(2)] + [ReadScheduled([LATER])] + [Submit(EARLIER, 0, 0)]

  /** Both jobs are in the schedule, and the one with the later time leaves it first. */
  lemma LateInsertIsOvertaken()
    ensures Reaches(LATE_INSERT, A4) && Reaches(LATE_INSERT + [MoveNext(true)], A5)
    ensures var t := A4.world.tables; t.scheduled["x"].phase.enqueueAt < t.scheduled["y"].phase.enqueueAt
    ensures "x" in A5.world.tables.scheduled && "y" !in A5.world.tables.scheduled
  {
    SubmitsLater(); ReadsLater(); SubmitsEarlier(); MovesLater();
    var r := [];
    Then(r, START, Submit(LATER, 0, 0), A1); r := r + [Submit(LATER, 0, 0)];
    Then(r, A1, Pass(2), A2); r := r + [Pass(2)];
    Then(r, A2, ReadScheduled([LATER]), A3); r := r + [ReadScheduled([LATER])];
    Then(r, A3, Submit(EARLIER, 0, 0), A4); r := r + [Submit(EARLIER, 0, 0)];
    Then(r, A4, MoveNext(true), A5);
  }
}
