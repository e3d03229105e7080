/** Transact nested to any depth (storage/memory.go:72-92). A transaction is a tree: storage calls, nested
    transactions and errors of the caller's own, where a body may return or swallow any error it gets.
    On the heap every level copies the whole state; the meaning of a tree needs no copies at all. */
module Transactions {
  import opened Jobs
  import S = Storage
  import opened Storage
  import opened JobMaps
  import opened MemoryStore

  datatype Call =
    | InsertToScheduled(s: ScheduledJob)
    | DeleteFromScheduled(id: JobId)
    | InsertToQueue(e: EnqueuedJob)
    | DeleteFromQueue(queue: string)
    | InsertToProcessing(p: ProcessingJob)
    | EmitHeartbeat(id: JobId, now: Time)
    | DeleteFromProcessing(id: JobId)
    | InsertToProcessed(d: ProcessedJob)
    | InsertToFailed(f: FailedJob)
    | DeleteFromFailed(id: JobId)
    | ClaimFailed(id: JobId)

  datatype Stmt =
    | Do(call: Call, swallow: bool)
    | Transact(body: seq<Stmt>, swallow: bool)
    | Return(error: Error)

  // ---- the meaning of a tree, on values ----

  /** A call may end like this. */
  ghost predicate CallMay(t: Tables, call: Call, outcome: Outcome) {
    match call
    case InsertToScheduled(job) => outcome == S.InsertToScheduled(t, job)
    case DeleteFromScheduled(id) => outcome == Ok(S.DeleteFromScheduled(t, id))
    case InsertToQueue(job) => outcome == S.InsertToQueue(t, job)
    case DeleteFromQueue(queue) =>
      if forall id :: id in t.enqueued ==> t.enqueued[id].queue != queue then outcome == Ok(t)
      else exists id :: IsOldest(t.enqueued, queue, id) && outcome == Ok(RemoveFromQueue(t, id))
    case InsertToProcessing(job) => outcome == S.InsertToProcessing(t, job)
    case EmitHeartbeat(id, now) => outcome == Ok(S.EmitHeartbeat(t, id, now))
    case DeleteFromProcessing(id) => outcome == Ok(S.DeleteFromProcessing(t, id))
    case InsertToProcessed(job) => outcome == S.InsertToProcessed(t, job)
    case InsertToFailed(job) => outcome == S.InsertToFailed(t, job)
    case DeleteFromFailed(id) => outcome == Ok(S.DeleteFromFailed(t, id))
    case ClaimFailed(id) => outcome == Ok(S.DeleteFromFailed(t, id))
  }

  /** An error that is swallowed leaves the tables alone. */
  function Swallowed(t: Tables, swallow: bool, outcome: Outcome): Outcome {
    if outcome.Err? && swallow then Ok(t) else outcome
  }

  ghost predicate StmtMay(t: Tables, stmt: Stmt, outcome: Outcome)
    decreases stmt, 0
  {
    match stmt
    case Do(call, swallow) => exists r :: CallMay(t, call, r) && outcome == Swallowed(t, swallow, r)
    case Transact(body, swallow) => exists r :: BodyMay(t, body, r) && outcome == Swallowed(t, swallow, r)
    case Return(error) => outcome == Err(error)
  }

  /** A body may end like this: its statements in order, up to the first error that it returns. */
  ghost predicate BodyMay(t: Tables, body: seq<Stmt>, outcome: Outcome)
    decreases body, 0
  {
    if body == [] then outcome == Ok(t)
    else exists r :: StmtMay(t, body[0], r) && Continues(r, body[1..], outcome)
  }

  ghost predicate Continues(r: Outcome, rest: seq<Stmt>, outcome: Outcome)
    decreases rest, 1
  {
    match r
    case Ok(t) => BodyMay(t, rest, outcome)
    case Err(_) => outcome == r
  }

  // ---- laws ----

  /** A body that ends like `outcome` can be cut anywhere. */
  lemma {:induction false} Cut(t: Tables, first: seq<Stmt>, second: seq<Stmt>, outcome: Outcome) returns (r: Outcome)
    requires BodyMay(t, first + second, outcome)
    ensures BodyMay(t, first, r) && Continues(r, second, outcome)
    decreases first
  {
    if first == [] {
      assert first + second == second;
      r := Ok(t);
    } else {
      assert (first + second)[1..] == first[1..] + second;
      var r0 :| StmtMay(t, first[0], r0) && Continues(r0, first[1..] + second, outcome);
      r := r0;
      if r0.Ok? {
        r := Cut(r0.tables, first[1..], second, outcome);
        assert Continues(r0, first[1..], r);
      }
    }
  }

  lemma {:induction false} Join(t: Tables, first: seq<Stmt>, r: Outcome, second: seq<Stmt>, outcome: Outcome)
    requires BodyMay(t, first, r) && Continues(r, second, outcome)
    ensures BodyMay(t, first + second, outcome)
    decreases first
  {
    if first == [] {
      assert first + second == second;
    } else {
      assert (first + second)[1..] == first[1..] + second;
      var r0 :| StmtMay(t, first[0], r0) && Continues(r0, first[1..], r);
      if r0.Ok? {
        Join(r0.tables, first[1..], r, second, outcome);
      }
      assert Continues(r0, (first + second)[1..], outcome);
    }
  }

  lemma TransactMay(t: Tables, body: seq<Stmt>, r: Outcome)
    ensures StmtMay(t, Transact(body, false), r) <==> BodyMay(t, body, r)
  {
    assert forall r' :: Swallowed(t, false, r') == r';
  }

  lemma FirstStep(t: Tables, body: seq<Stmt>, outcome: Outcome) returns (r: Outcome)
    requires body != [] && BodyMay(t, body, outcome)
    ensures StmtMay(t, body[0], r) && Continues(r, body[1..], outcome)
  {
    r :| StmtMay(t, body[0], r) && Continues(r, body[1..], outcome);
  }

  /** A nested transaction whose error is passed on is the same as its body in its place. */
  lemma NestingIsTransparent(t: Tables, body: seq<Stmt>, rest: seq<Stmt>, outcome: Outcome)
    ensures BodyMay(t, [Transact(body, false)] + rest, outcome) <==> BodyMay(t, body + rest, outcome)
  {
    var all := [Transact(body, false)] + rest;
    assert all[0] == Transact(body, false) && all[1..] == rest;
    if BodyMay(t, all, outcome) {
      var r := FirstStep(t, all, outcome);
      TransactMay(t, body, r);
      Join(t, body, r, rest, outcome);
    }
    if BodyMay(t, body + rest, outcome) {
      var r := Cut(t, body, rest, outcome);
      TransactMay(t, body, r);
      assert StmtMay(t, all[0], r) && Continues(r, all[1..], outcome);
    }
  }

  /** A nested transaction whose error is swallowed either takes its whole effect or has none. */
  lemma SwallowedIsAllOrNothing(t: Tables, body: seq<Stmt>, rest: seq<Stmt>, outcome: Outcome)
    ensures BodyMay(t, [Transact(body, true)] + rest, outcome)
      <==> || (exists t' :: BodyMay(t, body, Ok(t')) && BodyMay(t', rest, outcome))
           || ((exists e :: BodyMay(t, body, Err(e))) && BodyMay(t, rest, outcome))
  {
    var all := [Transact(body, true)] + rest;
    assert all[0] == Transact(body, true) && all[1..] == rest;
    if t' :| BodyMay(t, body, Ok(t')) && BodyMay(t', rest, outcome) {
      assert Swallowed(t, true, Ok(t')) == Ok(t');
      assert StmtMay(t, all[0], Ok(t')) && Continues(Ok(t'), all[1..], outcome);
    }
    if e :| BodyMay(t, body, Err(e)) && BodyMay(t, rest, outcome) {
      assert Swallowed(t, true, Err(e)) == Ok(t);
      assert StmtMay(t, all[0], Ok(t)) && Continues(Ok(t), all[1..], outcome);
    }
  }

  /** The tree without the transactions that pass their errors on. */
  function Flat(body: seq<Stmt>): seq<Stmt>
    decreases body
  {
    if body == [] then []
    else
      var rest := Flat(body[1..]);
      match body[0]
      case Transact(inner, swallow) => if swallow then [Transact(Flat(inner), true)] + rest else Flat(inner) + rest
      case stmt => [stmt] + rest
  }

  /** At any depth, only the transactions whose errors are swallowed matter. */
  lemma {:induction false} FlatteningKeepsMeaning(t: Tables, body: seq<Stmt>, outcome: Outcome)
    ensures BodyMay(t, Flat(body), outcome) <==> BodyMay(t, body, outcome)
    decreases body
  {
    if body != [] {
      var head, rest := body[0], body[1..];
      assert body == [head] + rest;
      forall r ensures Continues(r, Flat(rest), outcome) <==> Continues(r, rest, outcome) {
        if r.Ok? { FlatteningKeepsMeaning(r.tables, rest, outcome); }
      }
      if head.Transact? {
        var flat := Transact(Flat(head.body), head.swallow);
        forall r ensures StmtMay(t, flat, r) <==> StmtMay(t, head, r) {
          forall r' ensures BodyMay(t, Flat(head.body), r') <==> BodyMay(t, head.body, r') {
            FlatteningKeepsMeaning(t, head.body, r');
          }
        }
        SameHeadSameMeaning(t, flat, head, Flat(rest), rest, outcome);
        NestingIsTransparent(t, Flat(head.body), Flat(rest), outcome);
      } else {
        SameHeadSameMeaning(t, head, head, Flat(rest), rest, outcome);
      }
    }
  }

  lemma SameHeadSameMeaning(t: Tables, a: Stmt, b: Stmt, x: seq<Stmt>, y: seq<Stmt>, outcome: Outcome)
    requires forall r :: StmtMay(t, a, r) <==> StmtMay(t, b, r)
    requires forall r :: Continues(r, x, outcome) <==> Continues(r, y, outcome)
    ensures BodyMay(t, [a] + x, outcome) <==> BodyMay(t, [b] + y, outcome)
  {
    assert ([a] + x)[0] == a && ([a] + x)[1..] == x;
    assert ([b] + y)[0] == b && ([b] + y)[1..] == y;
  }

  // ---- the code, on the heap ----

  method ObjectOf<T>(job: Job<T>) returns (made: JobObject<T>)
    ensures fresh(made.Objects()) && made.Value() == job
  {
    var payload: PayloadMap? := null;
    if job.payload.Some? {
      payload := new PayloadMap(job.payload.value);
    }
    made := new JobObject(job.id, job.name, job.queue, payload, job.scheduledAt, job.phase);
  }

  /** Nil with the effect in place, or an error. */
  function Ended(err: Option<Error>, after: Tables): Outcome {
    match err
    case None => Ok(after)
    case Some(e) => Err(e)
  }

  /** The maps of the store are the ones it had, or new ones. */
  twostate predicate KeepsMaps(m: Memory)
    reads m
  {
    m.state == old(m.state) || NewMaps(m.state)
  }

  predicate Inserts(call: Call) {
    call.InsertToScheduled? || call.InsertToQueue? || call.InsertToProcessing? || call.InsertToProcessed? || call.InsertToFailed?
  }

  method RunInsert(m: Memory, call: Call) returns (err: Option<Error>)
    requires m.Valid() && Inserts(call)
    modifies m.state.scheduled, m.state.enqueued, m.state.processing, m.state.heartbeats, m.state.processed, m.state.failed
    ensures m.Valid() && m.state == old(m.state)
    ensures CallMay(old(m.Contents()), call, Ended(err, m.Contents()))
    ensures err.Some? ==> m.Contents() == old(m.Contents())
  {
    hide Memory.Valid, Memory.Contents, OnlyAdds;
    match call {
      case InsertToScheduled(s) => var job := ObjectOf(s); err := m.InsertToScheduled(job);
      case InsertToQueue(e) => var job := ObjectOf(e); err := m.InsertToQueue(job);
      case InsertToProcessing(p) => var job := ObjectOf(p); err := m.InsertToProcessing(job);
      case InsertToProcessed(d) => var job := ObjectOf(d); err := m.InsertToProcessed(job);
      case InsertToFailed(f) => var job := ObjectOf(f); err := m.InsertToFailed(job);
    }
  }

  method RunCall(m: Memory, call: Call) returns (err: Option<Error>)
    requires m.Valid()
    modifies m.state.scheduled, m.state.enqueued, m.state.processing, m.state.heartbeats, m.state.processed, m.state.failed
    ensures m.Valid() && m.state == old(m.state)
    ensures CallMay(old(m.Contents()), call, Ended(err, m.Contents()))
    ensures err.Some? ==> m.Contents() == old(m.Contents())
  {
    hide Memory.Valid, Memory.Contents, SameObjects;
    err := None;
    match call {
      case DeleteFromScheduled(id) => m.DeleteFromScheduled(id);
      case DeleteFromQueue(queue) => var _ := m.DeleteFromQueue(queue);
      case EmitHeartbeat(id, now) => m.EmitHeartbeat(id, now);
      case DeleteFromProcessing(id) => m.DeleteFromProcessing(id);
      case DeleteFromFailed(id) => m.DeleteFromFailed(id);
      case ClaimFailed(id) => var _ := m.ClaimFailed(id);
      case _ => err := RunInsert(m, call);
    }
  }

  /** The statements of a body, on the adapter it was given. */
  method RunBody(m: Memory, body: seq<Stmt>) returns (err: Option<Error>)
    requires m.Valid()
    modifies m, m.state.scheduled, m.state.enqueued, m.state.processing, m.state.heartbeats, m.state.processed, m.state.failed
    ensures m.Valid() && KeepsMaps(m)
    ensures BodyMay(old(m.Contents()), body, Ended(err, m.Contents()))
    decreases body, 0
  {
    hide Memory.Valid, Memory.Contents, NewJobs, StmtMay;
    if body == [] {
      return None;
    }
    ghost var before := m.Contents();
    err := RunStmt(m, body[0]);
    ghost var first := Ended(err, m.Contents());
    assert StmtMay(before, body[0], first);
    if err.Some? {
      assert Continues(first, body[1..], first);
      return;
    }
    err := RunBody(m, body[1..]);
    assert Continues(first, body[1..], Ended(err, m.Contents()));
  }

  method RunStmt(m: Memory, stmt: Stmt) returns (err: Option<Error>)
    requires m.Valid()
    modifies m, m.state.scheduled, m.state.enqueued, m.state.processing, m.state.heartbeats, m.state.processed, m.state.failed
    ensures m.Valid() && KeepsMaps(m)
    ensures StmtMay(old(m.Contents()), stmt, Ended(err, m.Contents()))
    decreases stmt, 0
  {
    hide Memory.Valid, Memory.Contents, NewJobs, BodyMay, CallMay;
    ghost var before := m.Contents();
    match stmt {
      case Return(error) => err := Some(error);
      case Do(call, swallow) =>
        err := RunCall(m, call);
        ghost var r := Ended(err, m.Contents());
        err := if swallow then None else err;
        assert CallMay(before, call, r) && Ended(err, m.Contents()) == Swallowed(before, swallow, r);
      case Transact(body, swallow) =>
        err := RunTransact(m, body);
        ghost var r := Ended(err, m.Contents());
        err := if swallow then None else err;
        assert BodyMay(before, body, r) && Ended(err, m.Contents()) == Swallowed(before, swallow, r);
    }
  }

  /** Transact: the body runs on a copy, which replaces the state only when there was no error. */
  method RunTransact(m: Memory, body: seq<Stmt>) returns (err: Option<Error>)
    requires m.Valid()
    modifies m
    ensures m.Valid()
    ensures BodyMay(old(m.Contents()), body, Ended(err, m.Contents()))
    ensures if err.Some? then m.state == old(m.state) && m.Contents() == old(m.Contents())
            else NewMaps(m.state)
    decreases body, 1
  {
    hide Memory.Valid, Memory.Contents, NewJobs, BodyMay;
    var tx := new Memory.Copy(m);
    err := RunBody(tx, body);
    if err == None {
      m.Adopt(tx);
    }
  }
}
