/** The queues of a whole run of the open regime, whatever the clocks of its processors say. */
module QueueRuns {
  import opened Jobs
  import opened Storage
  import opened OpenRegime
  import Q = Queueing
  import opened JobRows

  /** What the step does to the queues: at most one committed insert or claim. */
  function QueueOps(w: World, step: Step): seq<Q.Op> {
    var t, t' := w.tables, Next(w, step).tables;
    match Subject(step)
    case None => []
    case Some(id) =>
      if id in t.enqueued && id !in t'.enqueued then [Q.Claim(t.enqueued[id].queue, id)]
      else if id !in t.enqueued && id in t'.enqueued then [Q.Push(t'.enqueued[id])]
      else []
  }

  function Ops(run: seq<Step>): seq<Q.Op> {
    if run == [] then []
    else
      var before, step := run[..|run| - 1], run[|run| - 1];
      Ops(before) + QueueOps(After(before), step)
  }

  /** Only a committed dequeue takes a job from its queue, and a queued record is never replaced. */
  lemma EnqueuedRowStep(r: Rows, step: Step)
    ensures r.enqueued.Some? && !step.Dequeue? ==> RowsNext(r, step).enqueued == r.enqueued
    ensures r.enqueued.Some? && RowsNext(r, step).enqueued.Some? ==> RowsNext(r, step).enqueued == r.enqueued
    ensures r.enqueued.None? && step.Dequeue? ==> RowsNext(r, step).enqueued.None?
  {
  }

  lemma EnqueuedStep(w: World, step: Step, id: JobId)
    requires Identity(w) && Identity(Next(w, step))
    ensures var m, m' := w.tables.enqueued, Next(w, step).tables.enqueued;
      && (Subject(step) != Some(id) ==> Find(m', id) == Find(m, id))
      && (id in m && id in m' ==> m'[id] == m[id])
      && (id in m && id !in m' ==> step.Dequeue? && step.id == id)
      && (id in m' ==> m'[id].id == id)
  {
    hide Next;
    IdentityMeansKeyed(w);
    IdentityMeansKeyed(Next(w, step));
    StepRows(w, step, id);
    EnqueuedRowStep(RowsOf(w.tables, id), step);
  }

  lemma QueueStep(w: World, step: Step)
    requires Identity(w) && Identity(Next(w, step)) && Enabled(w, step)
    ensures var q, ops := w.tables.enqueued, QueueOps(w, step);
      && (ops == [] ==> Next(w, step).tables.enqueued == q)
      && (ops != [] ==> |ops| == 1 && Next(w, step).tables.enqueued == Q.Next(q, ops[0]) && Q.Allowed(q, ops[0]))
  {
    hide Next, Identity;
    forall id ensures Subject(step) != Some(id) ==> Find(Next(w, step).tables.enqueued, id) == Find(w.tables.enqueued, id) {
      EnqueuedStep(w, step, id);
    }
    if Subject(step).Some? {
      EnqueuedStep(w, step, Subject(step).value);
    }
    SameMaps(w.tables.enqueued, Next(w, step).tables.enqueued, Subject(step));
  }

  /** Maps that agree on every key but one. */
  lemma SameMaps(m: map<JobId, EnqueuedJob>, m': map<JobId, EnqueuedJob>, except: Option<JobId>)
    requires forall id :: except != Some(id) ==> Find(m', id) == Find(m, id)
    ensures except == None ==> m' == m
    ensures except.Some? ==> m' == if except.value in m' then m[except.value := m'[except.value]] else m - {except.value}
  {
    forall id | except != Some(id) ensures id in m' <==> id in m ensures id in m ==> m'[id] == m[id] {
      assert Find(m', id) == Find(m, id);
    }
  }

  lemma AfterOps(q: Q.Queues, ops: seq<Q.Op>, more: seq<Q.Op>)
    requires |more| <= 1
    ensures Q.After(q, ops + more) == if more == [] then Q.After(q, ops) else Q.Next(Q.After(q, ops), more[0])
    ensures Q.IsRun(q, ops + more) <==> Q.IsRun(q, ops) && (more != [] ==> Q.Allowed(Q.After(q, ops), more[0]))
  {
    if more == [] {
      assert ops + more == ops;
    } else {
      assert (ops + more)[..|ops + more| - 1] == ops;
    }
  }

  /** The queues of any run are those of its committed inserts and claims. */
  lemma {:induction false} RunsAreQueues(run: seq<Step>)
    requires IsRun(run)
    ensures Q.IsRun(map[], Ops(run)) && Q.After(map[], Ops(run)) == After(run).tables.enqueued
  {
    if run != [] {
      var before, step := run[..|run| - 1], run[|run| - 1];
      RunsAreQueues(before);
      RunsAreSound(before);
      RunsAreSound(run);
      QueueStep(After(before), step);
      AfterOps(map[], Ops(before), QueueOps(After(before), step));
    }
  }

  /** What happens to the queues after the first `n` steps. */
  function OpsSince(run: seq<Step>, n: nat): seq<Q.Op>
    requires n <= |run|
  {
    if n == |run| then []
    else
      var before, step := run[..|run| - 1], run[|run| - 1];
      OpsSince(before, n) + QueueOps(After(before), step)
  }

  lemma {:induction false} OpsSplit(run: seq<Step>, n: nat)
    requires n <= |run|
    ensures Ops(run) == Ops(run[..n]) + OpsSince(run, n)
  {
    if n == |run| {
      assert run[..n] == run && Ops(run[..n]) + [] == Ops(run);
    } else {
      var before := run[..|run| - 1];
      assert before[..n] == run[..n];
      OpsSplit(before, n);
      var more := QueueOps(After(before), run[|run| - 1]);
      assert Ops(run[..n]) + (OpsSince(before, n) + more) == (Ops(run[..n]) + OpsSince(before, n)) + more;
    }
  }

  lemma {:induction false} RunSplit(q: Q.Queues, ops: seq<Q.Op>, more: seq<Q.Op>)
    requires Q.IsRun(q, ops + more)
    ensures Q.IsRun(q, ops) && Q.IsRun(Q.After(q, ops), more)
    ensures Q.After(q, ops + more) == Q.After(Q.After(q, ops), more)
    decreases |more|
  {
    if more == [] {
      assert ops + more == ops;
    } else {
      var rest, op := more[..|more| - 1], more[|more| - 1];
      assert (ops + more)[..|ops + more| - 1] == ops + rest;
      RunSplit(q, ops, rest);
    }
  }

  lemma QueuesSince(run: seq<Step>, n: nat)
    requires IsRun(run) && n <= |run|
    ensures var q := After(run[..n]).tables.enqueued;
      Q.IsRun(q, OpsSince(run, n)) && Q.After(q, OpsSince(run, n)) == After(run).tables.enqueued
  {
    PrefixIsRun(run, n);
    RunsAreQueues(run);
    RunsAreQueues(run[..n]);
    OpsSplit(run, n);
    RunSplit(map[], Ops(run[..n]), OpsSince(run, n));
  }

  /** In any run of any number of processors, by any clocks, a job stays queued while its queue has had no more
      claims than there were older jobs in it, and at most until the claims outnumber those that were not younger
      and those that were put in with no later stamp since. */
  lemma WaitIsBounded(run: seq<Step>, n: nat, job: EnqueuedJob)
    requires IsRun(run) && n <= |run| && Q.Push(job) !in OpsSince(run, n)
    requires Q.Waiting(After(run[..n]).tables.enqueued, job)
    ensures var q, ops := After(run[..n]).tables.enqueued, OpsSince(run, n);
      && (Q.Claims(ops, job.queue) <= |Q.Ahead(q, job)| ==> Q.Waiting(After(run).tables.enqueued, job))
      && (Q.Waiting(After(run).tables.enqueued, job) ==>
            Q.Claims(ops, job.queue) <= |Q.NotBehind(q, job)| + Q.Overtakers(ops, job))
  {
    QueuesSince(run, n);
    Q.WaitIsBounded(After(run[..n]).tables.enqueued, OpsSince(run, n), job);
  }

  /** So no job is overtaken: if no other has its stamp, and none came into its queue since with a stamp that is
      not later, it leaves with the (k+1)-th claim on its queue, where k is the number of older jobs in it. */
  lemma NoJobIsOvertaken(run: seq<Step>, n: nat, job: EnqueuedJob)
    requires IsRun(run) && n <= |run| && Q.Overtakers(OpsSince(run, n), job) == 0
    requires var q := After(run[..n]).tables.enqueued; Q.Waiting(q, job) && Q.Untied(q, job)
    ensures Q.Waiting(After(run).tables.enqueued, job) <==>
      Q.Claims(OpsSince(run, n), job.queue) <= |Q.Ahead(After(run[..n]).tables.enqueued, job)|
  {
    QueuesSince(run, n);
    Q.NoOvertaking(After(run[..n]).tables.enqueued, OpsSince(run, n), job);
  }
}
