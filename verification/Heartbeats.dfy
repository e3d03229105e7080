/** Memory keeps heartbeats in a map of their own, which may hold IDs without a processing row;
    SQL keeps them in the row. No sequence of calls can tell the two apart. */
module Heartbeats {
  import opened Jobs
  import opened Storage

  datatype Call =
    | Insert(job: ProcessingJob)      // InsertToProcessing
    | Emit(id: JobId, now: Time)      // EmitHeartbeat
    | Delete(id: JobId)               // DeleteFromProcessing
    | Stale(cutoff: Time)             // GetByLastHeartbeatBefore

  datatype Reply = Fine | Duplicate | Stales(jobs: set<ProcessingJob>)

  // ---- Memory: two maps (storage/memory.go:206-245) ----

  datatype Memory = Memory(processing: map<JobId, ProcessingJob>, heartbeat: map<JobId, Time>)

  function MemoryNext(m: Memory, call: Call): Memory {
    match call
    case Insert(job) =>
      if job.id in m.processing then m
      else Memory(m.processing[job.id := job], m.heartbeat[job.id := job.phase.startedAt])
    case Emit(id, now) => m.(heartbeat := m.heartbeat[id := now])
    case Delete(id) => Memory(m.processing - {id}, m.heartbeat - {id})
    case Stale(_) => m
  }

  function MemoryReply(m: Memory, call: Call): Reply {
    match call
    case Insert(job) => if job.id in m.processing then Duplicate else Fine
    case Stale(cutoff) =>
      Stales(set id | id in m.heartbeat && m.heartbeat[id] < cutoff && id in m.processing :: m.processing[id])
    case _ => Fine
  }

  // ---- SQL: one table with a last_heartbeat_at column (storage/sql.go:332-380) ----

  datatype Row = Row(job: ProcessingJob, lastHeartbeatAt: Time)

  type Table = map<JobId, Row>

  function SqlNext(t: Table, call: Call): Table {
    match call
    case Insert(job) => if job.id in t then t else t[job.id := Row(job, job.phase.startedAt)]
    case Emit(id, now) => if id in t then t[id := t[id].(lastHeartbeatAt := now)] else t
    case Delete(id) => t - {id}
    case Stale(_) => t
  }

  function SqlReply(t: Table, call: Call): Reply {
    match call
    case Insert(job) => if job.id in t then Duplicate else Fine
    case Stale(cutoff) => Stales(set id | id in t && t[id].lastHeartbeatAt < cutoff :: t[id].job)
    case _ => Fine
  }

  // ---- the simulation ----

  /** The same rows; a heartbeat for every row; other heartbeats may be anything. */
  ghost predicate Simulates(m: Memory, t: Table) {
    && m.processing.Keys == t.Keys
    && (forall id :: id in t ==> m.processing[id] == t[id].job && id in m.heartbeat && m.heartbeat[id] == t[id].lastHeartbeatAt)
  }

  lemma SimulationStep(m: Memory, t: Table, call: Call)
    requires Simulates(m, t)
    ensures MemoryReply(m, call) == SqlReply(t, call)
    ensures Simulates(MemoryNext(m, call), SqlNext(t, call))
  {
    if call.Stale? {
      var inMemory := set id | id in m.heartbeat && m.heartbeat[id] < call.cutoff && id in m.processing :: m.processing[id];
      var inSql := set id | id in t && t[id].lastHeartbeatAt < call.cutoff :: t[id].job;
      forall job | job in inMemory ensures job in inSql {
        var id :| id in m.heartbeat && m.heartbeat[id] < call.cutoff && id in m.processing && m.processing[id] == job;
        assert id in t && t[id].job == job;
      }
      assert inMemory == inSql;
    }
  }

  function MemoryReplies(m: Memory, calls: seq<Call>): seq<Reply>
    decreases |calls|
  {
    if calls == [] then [] else [MemoryReply(m, calls[0])] + MemoryReplies(MemoryNext(m, calls[0]), calls[1..])
  }

  function SqlReplies(t: Table, calls: seq<Call>): seq<Reply>
    decreases |calls|
  {
    if calls == [] then [] else [SqlReply(t, calls[0])] + SqlReplies(SqlNext(t, calls[0]), calls[1..])
  }

  lemma {:induction false} SameReplies(m: Memory, t: Table, calls: seq<Call>)
    requires Simulates(m, t)
    ensures MemoryReplies(m, calls) == SqlReplies(t, calls)
    decreases |calls|
  {
    if calls != [] {
      SimulationStep(m, t, calls[0]);
      SameReplies(MemoryNext(m, calls[0]), SqlNext(t, calls[0]), calls[1..]);
    }
  }

  /** Started empty, both stores answer every sequence of calls alike, whatever heartbeats come late. */
  lemma DanglingHeartbeatsAreUnobservable(calls: seq<Call>)
    ensures MemoryReplies(Memory(map[], map[]), calls) == SqlReplies(map[], calls)
  {
    SameReplies(Memory(map[], map[]), map[], calls);
  }

  /** The two maps of Memory are those of the tables the lifecycle runs on, and so are its orphans. */
  lemma MemoryIsTheTables(t: Tables, job: ProcessingJob, id: JobId, now: Time)
    ensures var m := Memory(t.processing, t.heartbeats);
      && (match InsertToProcessing(t, job)
          case Ok(t') => MemoryReply(m, Insert(job)) == Fine && MemoryNext(m, Insert(job)) == Memory(t'.processing, t'.heartbeats)
          case Err(e) => MemoryReply(m, Insert(job)) == Duplicate && MemoryNext(m, Insert(job)) == m && e == DuplicateJob)
      && MemoryNext(m, Emit(id, now)) == Memory(EmitHeartbeat(t, id, now).processing, EmitHeartbeat(t, id, now).heartbeats)
      && MemoryNext(m, Delete(id)) == Memory(DeleteFromProcessing(t, id).processing, DeleteFromProcessing(t, id).heartbeats)
      && MemoryNext(m, Stale(now)) == m
      && MemoryReply(m, Stale(now)) == Stales(set k | k in t.processing && StaleRow(t, k, now) :: t.processing[k])
  {
    var m := Memory(t.processing, t.heartbeats);
    var orphans := set k | k in t.processing && StaleRow(t, k, now) :: t.processing[k];
    forall j ensures j in orphans <==> j in MemoryReply(m, Stale(now)).jobs {
      if j in orphans {
        var k :| k in t.processing && StaleRow(t, k, now) && t.processing[k] == j;
        assert k in m.heartbeat && m.heartbeat[k] < now && k in m.processing;
      }
      if j in MemoryReply(m, Stale(now)).jobs {
        var k :| k in m.heartbeat && m.heartbeat[k] < now && k in m.processing && m.processing[k] == j;
        assert StaleRow(t, k, now);
      }
    }
  }
}
