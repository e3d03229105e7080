/** The Go maps of job pointers that storage.Memory keeps: payloads are maps shared by reference, and every
    job is copied on its way in and on its way out. */
module JobMaps {
  import opened Jobs
  import opened Storage
  import opened Paging

  /** A JobPayload: a Go map, which is a reference. */
  class PayloadMap {
    var entries: map<string, string>

    constructor (entries: map<string, string>)
      ensures this.entries == entries
    {
      this.entries := entries;
    }
  }

  /** A job struct behind a pointer. */
  class JobObject<T> {
    var id: JobId
    var name: string
    var queue: string
    var payload: PayloadMap?
    var scheduledAt: Time
    var phase: T

    constructor (id: JobId, name: string, queue: string, payload: PayloadMap?, scheduledAt: Time, phase: T)
      ensures this.id == id && this.name == name && this.queue == queue && this.payload == payload
      ensures this.scheduledAt == scheduledAt && this.phase == phase
    {
      this.id, this.name, this.queue, this.payload := id, name, queue, payload;
      this.scheduledAt, this.phase := scheduledAt, phase;
    }

    function Value(): Job<T>
      reads this, payload
    {
      Job(id, name, queue, if payload == null then None else Some(payload.entries), scheduledAt, phase)
    }

    /** The struct and the payload map it points to. */
    ghost function Objects(): set<object>
      reads this
    {
      {this} + if payload == null then {} else {payload}
    }
  }

  method ClonePayload(payload: PayloadMap?) returns (cloned: PayloadMap?)
    ensures cloned == null <==> payload == null
    ensures cloned != null ==> fresh(cloned) && cloned.entries == payload.entries
  {
    if payload == null {
      return null;
    }
    var copy := new PayloadMap(map[]);
    var keys := payload.entries.Keys;
    while keys != {}
      invariant keys <= payload.entries.Keys
      invariant payload.entries == old(payload.entries)
      invariant copy.entries == map k | k in payload.entries && k !in keys :: payload.entries[k]
      decreases keys
    {
      var key :| key in keys;
      copy.entries := copy.entries[key := payload.entries[key]];
      keys := keys - {key};
    }
    cloned := copy;
  }

  method CloneJob<T>(job: JobObject<T>) returns (cloned: JobObject<T>)
    ensures fresh(cloned.Objects()) && cloned.Value() == job.Value()
    ensures cloned.id == job.id && cloned.name == job.name && cloned.queue == job.queue
    ensures cloned.scheduledAt == job.scheduledAt && cloned.phase == job.phase
    ensures (cloned.payload == null <==> job.payload == null)
    ensures job.payload != null ==> cloned.payload.entries == job.payload.entries
  {
    var payload := ClonePayload(job.payload);
    cloned := new JobObject(job.id, job.name, job.queue, payload, job.scheduledAt, job.phase);
  }

  /** A Go map from IDs to job pointers, which is a reference too. */
  class JobMap<T(!new)> {
    var jobs: map<JobId, JobObject<T>>
    /** The stored jobs as values, and the structs and payload maps that hold them. */
    ghost var rows: map<JobId, Job<T>>
    ghost var structs: set<JobObject<T>>
    ghost var payloads: set<PayloadMap>

    constructor ()
      ensures Valid() && rows == map[] && structs == {} && payloads == {}
    {
      jobs, rows, structs, payloads := map[], map[], {}, {};
    }

    ghost predicate Valid()
      reads this, structs, payloads
    {
      rows.Keys == jobs.Keys && forall id {:trigger Stores(id)} :: id in jobs ==> Stores(id)
    }

    /** `id` maps to a job struct of its own, which holds the row. */
    ghost predicate Stores(id: JobId)
      reads this, structs, payloads
    {
      && id in jobs && jobs[id] in structs && (jobs[id].payload != null ==> jobs[id].payload in payloads)
      && id in rows && jobs[id].id == id && jobs[id].Value() == rows[id]
    }

    /** Stores a copy of the job in place of any other with its ID. */
    method Store(job: JobObject<T>) returns (ghost copy: JobObject<T>)
      requires Valid()
      modifies this
      ensures Valid() && fresh(copy) && (copy.payload != null ==> fresh(copy.payload))
      ensures structs == old(structs) + {copy}
      ensures payloads == old(payloads) + if copy.payload == null then {} else {copy.payload}
      ensures rows == old(rows)[old(job.Value()).id := old(job.Value())]
    {
      var stored := CloneJob(job);
      copy := stored;
      jobs := jobs[stored.id := stored];
      rows := rows[copy.id := copy.Value()];
      structs := structs + {copy};
      payloads := payloads + if copy.payload == null then {} else {copy.payload};
      forall id | id in jobs ensures Stores(id) { assert id != copy.id ==> old(Stores(id)); }
    }

    /** Stores a copy of the job unless its ID is taken. */
    method Insert(job: JobObject<T>) returns (ok: bool)
      requires Valid()
      modifies this
      ensures Valid() && fresh(structs - old(structs)) && fresh(payloads - old(payloads))
      ensures ok == (old(job.Value()).id !in old(rows))
      ensures rows == if ok then old(rows)[old(job.Value()).id := old(job.Value())] else old(rows)
    {
      if job.id in jobs {
        return false;
      }
      ghost var copy := Store(job);
      ok := true;
    }

    method Delete(id: JobId)
      requires Valid()
      modifies this
      ensures Valid() && structs == old(structs) && payloads == old(payloads) && rows == old(rows) - {id}
    {
      jobs := jobs - {id};
      rows := rows - {id};
      forall k | k in jobs ensures Stores(k) { assert old(Stores(k)); }
    }

    /** A copy of the job, or null. */
    method Get(id: JobId) returns (job: JobObject?<T>)
      requires Valid()
      ensures job == null <==> id !in rows
      ensures job != null ==> fresh(job.Objects()) && job.Value() == rows[id] && job.id == id
    {
      if id !in jobs {
        return null;
      }
      assert Stores(id);
      job := CloneJob(jobs[id]);
    }

    /** Removes the job and returns a copy of it, or null. */
    method Take(id: JobId) returns (job: JobObject?<T>)
      requires Valid()
      modifies this
      ensures Valid() && structs == old(structs) && payloads == old(payloads) && rows == old(rows) - {id}
      ensures job == null <==> id !in old(rows)
      ensures job != null ==> fresh(job.Objects()) && job.Value() == old(rows)[id] && job.id == id
    {
      job := Get(id);
      if job != null {
        Delete(id);
      }
    }

    /** Copies of the jobs to keep, sorted. */
    method Select(keep: Job<T> -> bool, less: (Job<T>, Job<T>) -> bool)
      returns (jobs: seq<JobObject<T>>, ghost values: seq<Job<T>>)
      requires Valid() && IsStrict(less)
      ensures fresh(jobs) && fresh(PayloadsOf(jobs)) && Shows(jobs, values)
      ensures Lists(values, rows, keep) && InOrder(values, less)
    {
      hide JobMap.Valid, IsStrict, InOrder, PayloadsOf;
      var found, listed := Collect(keep);
      jobs, values := SortSlice(found, listed, less);
      PayloadsAmong(jobs, found);
    }

    /** The loop over the map, in any order. */
    method Collect(keep: Job<T> -> bool) returns (found: seq<JobObject<T>>, ghost values: seq<Job<T>>)
      requires Valid()
      ensures fresh(found) && fresh(PayloadsOf(found)) && Shows(found, values)
      ensures Lists(values, rows, keep)
    {
      found, values := [], [];
      var ids := jobs.Keys;
      while ids != {}
        invariant ids <= jobs.Keys && |found| == |values|
        invariant forall i :: 0 <= i < |found| ==> fresh(found[i].Objects()) && found[i].Value() == values[i]
        invariant Lists(values, rows - ids, keep)
        decreases ids
      {
        var id :| id in ids;
        assert Stores(id);
        ListsOneMore(values, rows, ids, id, keep);
        if keep(jobs[id].Value()) {
          var copy := CloneJob(jobs[id]);
          found, values := found + [copy], values + [copy.Value()];
        }
        ids := ids - {id};
      }
      assert rows - {} == rows;
    }

    /** The legacy listings: a page of copies of the jobs to keep, or None for the panic of paginate. */
    method List(keep: Job<T> -> bool, less: (Job<T>, Job<T>) -> bool, limit: uint, offset: uint)
      returns (page: Option<seq<JobObject<T>>>, ghost all: seq<Job<T>>)
      requires Valid() && IsStrict(less)
      ensures Lists(all, rows, keep) && InOrder(all, less)
      ensures page.Some? <==> Paginate(all, limit, offset).Some?
      ensures page.Some? ==> fresh(page.value) && fresh(PayloadsOf(page.value)) && Shows(page.value, Paginate(all, limit, offset).value)
    {
      hide JobMap.Valid, IsStrict, InOrder, Lists, PayloadsOf;
      var jobs;
      jobs, all := Select(keep, less);
      page := Paginate(jobs, limit, offset);
      if page.Some? {
        PayloadsAmong(page.value, jobs);
      }
    }

    method Clone() returns (cloned: JobMap<T>)
      requires Valid()
      ensures cloned.Valid() && cloned.rows == rows
      ensures fresh(cloned) && fresh(cloned.structs) && fresh(cloned.payloads)
    {
      assert forall id :: id in jobs ==> Stores(id);
      cloned := CloneMap(jobs, rows);
    }
  }

  method CloneMap<T(!new)>(jobs: map<JobId, JobObject<T>>, ghost rows: map<JobId, Job<T>>) returns (cloned: JobMap<T>)
    requires jobs.Keys == rows.Keys
    requires forall id :: id in jobs ==> jobs[id].Value() == rows[id] && rows[id].id == id
    ensures cloned.Valid() && cloned.rows == rows
    ensures fresh(cloned) && fresh(cloned.structs) && fresh(cloned.payloads)
  {
    cloned := new JobMap();
    var ids := jobs.Keys;
    while ids != {}
      invariant ids <= jobs.Keys && cloned.Valid()
      invariant fresh(cloned) && fresh(cloned.structs) && fresh(cloned.payloads)
      invariant forall id :: id in cloned.rows <==> id in rows && id !in ids
      invariant forall id :: id in cloned.rows ==> cloned.rows[id] == rows[id]
      decreases ids
    {
      var id :| id in ids;
      ghost var copy := cloned.Store(jobs[id]);
      ids := ids - {id};
    }
  }

  function PayloadsOf<T>(jobs: seq<JobObject<T>>): set<PayloadMap>
    reads jobs
  {
    set job | job in jobs && job.payload != null :: job.payload
  }

  lemma PayloadsAmong<T(!new)>(some: seq<JobObject<T>>, all: seq<JobObject<T>>)
    requires forall i :: 0 <= i < |some| ==> some[i] in all
    ensures PayloadsOf(some) <= PayloadsOf(all)
  {
  }

  /** The job structs hold these values. */
  ghost predicate Shows<T(!new)>(jobs: seq<JobObject<T>>, values: seq<Job<T>>)
    reads jobs, PayloadsOf(jobs)
  {
    |jobs| == |values| && forall i :: 0 <= i < |jobs| ==> jobs[i].Value() == values[i]
  }

  // ---- sorting ----

  /** What sort.Slice needs of the function it is given. */
  ghost predicate IsStrict<T(!new)>(less: (Job<T>, Job<T>) -> bool) {
    && (forall a, b :: less(a, b) ==> !less(b, a))
    && (forall a, b, c :: less(a, b) && less(b, c) ==> less(a, c))
  }

  /** What sort.Slice promises; jobs of which neither is less come in any order. */
  ghost predicate InOrder<T>(values: seq<Job<T>>, less: (Job<T>, Job<T>) -> bool) {
    forall i, j :: 0 <= i < j < |values| ==> !less(values[j], values[i])
  }

  function Earlier<T(!new)>(at: T -> Time): (less: (Job<T>, Job<T>) -> bool)
    ensures IsStrict(less)
  {
    (a: Job<T>, b: Job<T>) => at(a.phase) < at(b.phase)
  }

  function Later<T(!new)>(at: T -> Time): (less: (Job<T>, Job<T>) -> bool)
    ensures IsStrict(less)
  {
    (a: Job<T>, b: Job<T>) => at(a.phase) > at(b.phase)
  }

  lemma ListsOneMore<T(!new)>(values: seq<Job<T>>, rows: map<JobId, Job<T>>, ids: set<JobId>, id: JobId, keep: Job<T> -> bool)
    requires Lists(values, rows - ids, keep) && id in ids && id in rows && rows[id].id == id
    ensures Lists(if keep(rows[id]) then values + [rows[id]] else values, rows - (ids - {id}), keep)
  {
    var rest := rows - (ids - {id});
    forall k | k in rest && keep(rest[k]) && k != id ensures rest[k] in values {
      assert k in rows - ids;
    }
  }

  ghost predicate DistinctIds<T>(values: seq<Job<T>>) {
    forall i, j :: 0 <= i < j < |values| ==> values[i].id != values[j].id
  }

  function InsertAt<T(!new)>(values: seq<Job<T>>, k: nat, job: Job<T>): (r: seq<Job<T>>)
    requires k <= |values|
    ensures |r| == |values| + 1 && forall v :: v in r <==> v == job || v in values
  {
    assert values == values[..k] + values[k..];
    values[..k] + [job] + values[k..]
  }

  /** `job` goes in front of the first job that it is less than. */
  lemma InsertAtKeepsOrder<T(!new)>(values: seq<Job<T>>, k: nat, job: Job<T>, less: (Job<T>, Job<T>) -> bool)
    requires IsStrict(less) && k <= |values| && InOrder(values, less)
    requires forall i :: 0 <= i < k ==> !less(job, values[i])
    requires k < |values| ==> less(job, values[k])
    ensures InOrder(InsertAt(values, k, job), less)
  {
    forall j | k <= j < |values| ensures !less(values[j], job) {
      var v, w := values[j], values[k];
      assert less(v, job) ==> less(v, w);
    }
  }

  lemma InsertAtKeepsDistinct<T(!new)>(values: seq<Job<T>>, k: nat, job: Job<T>)
    requires k <= |values| && DistinctIds(values) && forall v :: v in values ==> v.id != job.id
    ensures DistinctIds(InsertAt(values, k, job))
  {
  }

  /** `order` holds the same jobs, each once, in order. */
  ghost predicate Sorts<T(!new)>(order: seq<Job<T>>, values: seq<Job<T>>, less: (Job<T>, Job<T>) -> bool) {
    |order| == |values| && (forall v :: v in order <==> v in values) && DistinctIds(order) && InOrder(order, less)
  }

  lemma SortsOneMore<T(!new)>(order: seq<Job<T>>, values: seq<Job<T>>, k: nat, job: Job<T>, less: (Job<T>, Job<T>) -> bool)
    requires IsStrict(less) && Sorts(order, values, less) && k <= |order| && DistinctIds(values + [job])
    requires forall i :: 0 <= i < k ==> !less(job, order[i])
    requires k < |order| ==> less(job, order[k])
    ensures Sorts(InsertAt(order, k, job), values + [job], less)
  {
    forall v | v in order ensures v.id != job.id {
      var i :| 0 <= i < |values| && values[i] == v;
      assert (values + [job])[i].id != (values + [job])[|values|].id;
    }
    InsertAtKeepsOrder(order, k, job, less);
    InsertAtKeepsDistinct(order, k, job);
  }

  lemma InsertAtKeepsValues<T(!new)>(jobs: seq<JobObject<T>>, values: seq<Job<T>>, k: nat, job: JobObject<T>)
    requires |jobs| == |values| && k <= |jobs| && forall i :: 0 <= i < |jobs| ==> jobs[i].Value() == values[i]
    ensures var jobs' := jobs[..k] + [job] + jobs[k..];
      forall i :: 0 <= i < |jobs'| ==> jobs'[i].Value() == InsertAt(values, k, job.Value())[i]
  {
  }

  /** sort.Slice. */
  method SortSlice<T(!new)>(jobs: seq<JobObject<T>>, ghost values: seq<Job<T>>, less: (Job<T>, Job<T>) -> bool)
    returns (sorted: seq<JobObject<T>>, ghost order: seq<Job<T>>)
    requires IsStrict(less) && DistinctIds(values)
    requires |jobs| == |values| && forall i :: 0 <= i < |jobs| ==> jobs[i].Value() == values[i]
    ensures |sorted| == |jobs| && Sorts(order, values, less)
    ensures forall i :: 0 <= i < |sorted| ==> sorted[i] in jobs && sorted[i].Value() == order[i]
  {
    sorted, order := [], [];
    for n := 0 to |jobs|
      invariant |sorted| == n && Sorts(order, values[..n], less)
      invariant forall i :: 0 <= i < n ==> sorted[i] in jobs
      invariant forall i :: 0 <= i < n ==> sorted[i].Value() == order[i]
    {
      var k := Place(sorted, order, jobs[n], less);
      assert values[..n + 1] == values[..n] + [values[n]];
      SortsOneMore(order, values[..n], k, values[n], less);
      InsertAtKeepsValues(sorted, order, k, jobs[n]);
      sorted := sorted[..k] + [jobs[n]] + sorted[k..];
      order := InsertAt(order, k, values[n]);
    }
    assert values[..|jobs|] == values;
  }

  method Place<T(!new)>(sorted: seq<JobObject<T>>, ghost order: seq<Job<T>>, job: JobObject<T>, less: (Job<T>, Job<T>) -> bool)
    returns (k: nat)
    requires |sorted| == |order| && forall i :: 0 <= i < |sorted| ==> sorted[i].Value() == order[i]
    ensures k <= |sorted|
    ensures forall i :: 0 <= i < k ==> !less(job.Value(), order[i])
    ensures k < |sorted| ==> less(job.Value(), order[k])
  {
    k := 0;
    while k < |sorted| && !less(job.Value(), sorted[k].Value())
      invariant k <= |sorted|
      invariant forall i :: 0 <= i < k ==> !less(job.Value(), order[i])
    {
      k := k + 1;
    }
  }
}
