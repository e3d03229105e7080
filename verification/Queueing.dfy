/** The order in which the queues hand out their jobs, while producers keep adding new ones with whatever
    stamps. A job waits for those that were stamped before it, and for nobody who came later with a later stamp. */
module Queueing {
  import opened Jobs
  import opened Storage

  type Queues = map<JobId, EnqueuedJob>

  datatype Op =
    | Push(job: EnqueuedJob)          // a committed InsertToQueue
    | Claim(queue: string, id: JobId) // a committed DeleteFromQueue that returned `id`

  ghost predicate Allowed(q: Queues, op: Op) {
    match op
    case Push(job) => job.id !in q
    case Claim(queue, id) => IsOldest(q, queue, id)
  }

  function Next(q: Queues, op: Op): Queues {
    match op
    case Push(job) => q[job.id := job]
    case Claim(_, id) => q - {id}
  }

  function After(q: Queues, ops: seq<Op>): Queues {
    if ops == [] then q else Next(After(q, ops[..|ops| - 1]), ops[|ops| - 1])
  }

  ghost predicate IsRun(q: Queues, ops: seq<Op>) {
    ops != [] ==> IsRun(q, ops[..|ops| - 1]) && Allowed(After(q, ops[..|ops| - 1]), ops[|ops| - 1])
  }

  predicate Waiting(q: Queues, job: EnqueuedJob) {
    job.id in q && q[job.id] == job
  }

  /** The jobs of the same queue with an earlier stamp: they are handed out first. */
  function Ahead(q: Queues, job: EnqueuedJob): set<JobId> {
    set id | id in q && q[id].queue == job.queue && q[id].phase.enqueuedAt < job.phase.enqueuedAt
  }

  /** Those with the same stamp too: they may be handed out first. */
  function NotBehind(q: Queues, job: EnqueuedJob): set<JobId> {
    set id | id in q && id != job.id && q[id].queue == job.queue && q[id].phase.enqueuedAt <= job.phase.enqueuedAt
  }

  function Claims(ops: seq<Op>, queue: string): nat {
    if ops == [] then 0 else
      var op := ops[|ops| - 1];
      Claims(ops[..|ops| - 1], queue) + if op.Claim? && op.queue == queue then 1 else 0
  }

  /** The insert puts a job into the same queue, and not behind this one. */
  predicate Overtakes(op: Op, job: EnqueuedJob) {
    op.Push? && op.job.queue == job.queue && op.job.phase.enqueuedAt <= job.phase.enqueuedAt
  }

  function Overtakers(ops: seq<Op>, job: EnqueuedJob): nat {
    if ops == [] then 0
    else Overtakers(ops[..|ops| - 1], job) + if Overtakes(ops[|ops| - 1], job) then 1 else 0
  }

  /** A claim on the job's own queue takes a job that is not behind it, and one that is ahead if there is any. */
  lemma ClaimTakesHead(q: Queues, id: JobId, job: EnqueuedJob)
    requires IsOldest(q, job.queue, id) && Waiting(q, job)
    ensures var q' := Next(q, Claim(job.queue, id));
      && (Ahead(q, job) != {} ==> id in Ahead(q, job))
      && Ahead(q', job) == Ahead(q, job) - {id}
      && (id == job.id <==> !Waiting(q', job))
      && (id != job.id ==> id in NotBehind(q, job) && NotBehind(q', job) == NotBehind(q, job) - {id})
  {
  }

  lemma OtherOpsKeepPlace(q: Queues, op: Op, job: EnqueuedJob)
    requires Allowed(q, op) && Waiting(q, job) && (op.Claim? ==> op.queue != job.queue)
    ensures var q' := Next(q, op);
      && Waiting(q', job) && Ahead(q, job) <= Ahead(q', job)
      && NotBehind(q', job) == (if Overtakes(op, job) then NotBehind(q, job) + {op.job.id} else NotBehind(q, job))
      && (Overtakes(op, job) ==> op.job.id !in NotBehind(q, job))
  {
  }

  lemma OneLess(a: set<JobId>, id: JobId)
    ensures |a - {id}| == if id in a then |a| - 1 else |a|
  {
    assert id in a ==> a == (a - {id}) + {id};
    assert id !in a ==> a - {id} == a;
  }

  lemma NoFewer(a: set<JobId>, b: set<JobId>)
    requires a <= b
    ensures |a| <= |b|
  {
    assert b == a + (b - a) && |b| == |a| + |b - a|;
  }

  /** While a job waits: no claim passes over those ahead of it, and each takes one that is not behind it. */
  predicate InLine(ahead: nat, notBehind: nat, claims: nat, overtakers: nat, q: Queues, job: EnqueuedJob) {
    ahead <= |Ahead(q, job)| + claims && |NotBehind(q, job)| + claims == notBehind + overtakers
  }

  lemma InLineStep(ahead: nat, notBehind: nat, claims: nat, overtakers: nat, q: Queues, job: EnqueuedJob, op: Op)
    requires Waiting(q, job) && Allowed(q, op) && InLine(ahead, notBehind, claims, overtakers, q, job)
    ensures var own := op.Claim? && op.queue == job.queue;
      if Waiting(Next(q, op), job) then
        InLine(ahead, notBehind, claims + if own then 1 else 0, overtakers + if Overtakes(op, job) then 1 else 0,
               Next(q, op), job)
      else own && ahead <= claims
  {
    if op.Claim? && op.queue == job.queue {
      ClaimTakesHead(q, op.id, job);
      OneLess(Ahead(q, job), op.id);
      OneLess(NotBehind(q, job), op.id);
    } else {
      OtherOpsKeepPlace(q, op, job);
      NoFewer(Ahead(q, job), Ahead(Next(q, op), job));
    }
  }

  /** Whatever stamps the later inserts carry: a job waits at least as long as there were claims on its queue for
      no more than those ahead of it, and no longer than for those and the ones that were not put behind it. */
  lemma {:induction false} WaitIsBounded(q: Queues, ops: seq<Op>, job: EnqueuedJob)
    requires IsRun(q, ops) && Waiting(q, job) && Push(job) !in ops
    ensures Claims(ops, job.queue) <= |Ahead(q, job)| ==> Waiting(After(q, ops), job)
    ensures Waiting(After(q, ops), job) ==>
      InLine(|Ahead(q, job)|, |NotBehind(q, job)|, Claims(ops, job.queue), Overtakers(ops, job), After(q, ops), job)
    ensures Waiting(After(q, ops), job) ==> Claims(ops, job.queue) <= |NotBehind(q, job)| + Overtakers(ops, job)
  {
    if ops != [] {
      hide InLine, Ahead, NotBehind;
      var before, op := ops[..|ops| - 1], ops[|ops| - 1];
      WaitIsBounded(q, before, job);
      if Waiting(After(q, before), job) {
        InLineStep(|Ahead(q, job)|, |NotBehind(q, job)|, Claims(before, job.queue), Overtakers(before, job),
                   After(q, before), job, op);
        InLineBound(|Ahead(q, job)|, |NotBehind(q, job)|, Claims(ops, job.queue), Overtakers(ops, job), After(q, ops), job);
      } else {
        assert op != Push(job);
      }
    }
  }

  lemma InLineBound(ahead: nat, notBehind: nat, claims: nat, overtakers: nat, q: Queues, job: EnqueuedJob)
    ensures InLine(ahead, notBehind, claims, overtakers, q, job) ==> claims <= notBehind + overtakers
  {
  }

  /** No other job of its queue has its stamp. */
  predicate Untied(q: Queues, job: EnqueuedJob) {
    forall id :: id in q && id != job.id && q[id].queue == job.queue ==> q[id].phase.enqueuedAt != job.phase.enqueuedAt
  }

  /** A job with k older jobs in its queue, and none of its age, is still waiting exactly while that queue has had
      at most k claims, as long as those that come into its queue are stamped later. */
  lemma NoOvertaking(q: Queues, ops: seq<Op>, job: EnqueuedJob)
    requires IsRun(q, ops) && Waiting(q, job) && Untied(q, job) && Overtakers(ops, job) == 0
    ensures Waiting(After(q, ops), job) <==> Claims(ops, job.queue) <= |Ahead(q, job)|
  {
    if Push(job) in ops { SomeOvertaker(ops, job); }
    WaitIsBounded(q, ops, job);
    assert NotBehind(q, job) == Ahead(q, job);
  }

  lemma {:induction false} SomeOvertaker(ops: seq<Op>, job: EnqueuedJob)
    requires Push(job) in ops
    ensures Overtakers(ops, job) > 0
  {
    var before := ops[..|ops| - 1];
    if ops[|ops| - 1] != Push(job) {
      var i :| 0 <= i < |ops| && ops[i] == Push(job);
      assert before[i] == Push(job);
      SomeOvertaker(before, job);
    }
  }

  /** The claim that returns the job is the (k+1)-th one on its queue, and no other. */
  lemma ReturnedByClaim(q: Queues, ops: seq<Op>, id: JobId, job: EnqueuedJob)
    requires IsRun(q, ops) && Waiting(q, job) && Untied(q, job) && Overtakers(ops, job) == 0
    requires Allowed(After(q, ops), Claim(job.queue, id))
    ensures id == job.id && After(q, ops)[id] == job <==> Claims(ops, job.queue) == |Ahead(q, job)|
  {
    var more := ops + [Claim(job.queue, id)];
    assert more[..|ops|] == ops && more[|ops|] == Claim(job.queue, id);
    NoOvertaking(q, ops, job);
    NoOvertaking(q, more, job);
    if Waiting(After(q, ops), job) { ClaimTakesHead(After(q, ops), id, job); }
  }

  /** A claim leaves every other queue as it was. */
  lemma OtherQueuesUnchanged(q: Queues, queue: string, id: JobId, k: JobId)
    requires IsOldest(q, queue, id) && k in q && q[k].queue != queue
    ensures k in Next(q, Claim(queue, id)) && Next(q, Claim(queue, id))[k] == q[k]
  {
  }

  // ---- draining ----

  /** The jobs that claiming `ids` one after the other returns. */
  function Drained(jobs: map<JobId, EnqueuedJob>, ids: seq<JobId>): seq<EnqueuedJob> {
    if ids == [] || ids[0] !in jobs then [] else [jobs[ids[0]]] + Drained(jobs - {ids[0]}, ids[1..])
  }

  ghost predicate IsDrain(jobs: map<JobId, EnqueuedJob>, queue: string, ids: seq<JobId>) {
    if ids == [] then forall k :: k in jobs ==> jobs[k].queue != queue
    else IsOldest(jobs, queue, ids[0]) && IsDrain(jobs - {ids[0]}, queue, ids[1..])
  }

  /** Draining a queue returns exactly its jobs, each once, oldest first. */
  lemma {:induction false} DrainIsSorted(jobs: map<JobId, EnqueuedJob>, queue: string, ids: seq<JobId>)
    requires (forall id :: id in jobs ==> jobs[id].id == id) && IsDrain(jobs, queue, ids)
    ensures var out := Drained(jobs, ids);
      && |out| == |ids|
      && (forall i :: 0 <= i < |out| ==> out[i].id == ids[i])
      && (forall i, j :: 0 <= i < j < |out| ==>
            out[i].phase.enqueuedAt <= out[j].phase.enqueuedAt && out[i].id != out[j].id)
      && (forall job :: job in out <==> job.id in jobs && jobs[job.id] == job && job.queue == queue)
  {
    if ids != [] {
      var rest := jobs - {ids[0]};
      DrainIsSorted(rest, queue, ids[1..]);
      var out, tail := Drained(jobs, ids), Drained(rest, ids[1..]);
      assert out == [jobs[ids[0]]] + tail;
      forall j | 0 <= j < |tail| ensures jobs[ids[0]].phase.enqueuedAt <= tail[j].phase.enqueuedAt && tail[j].id != ids[0] {
        assert tail[j] in tail;
      }
      forall job ensures job in out <==> job.id in jobs && jobs[job.id] == job && job.queue == queue {
        assert job in out <==> job == jobs[ids[0]] || job in tail;
      }
    }
  }
}
