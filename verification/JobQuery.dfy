/** Listing jobs for the dashboard: the in-memory filter, sort and slice (storage/memory.go:362-482) and
    the SQL query (storage/sql.go:574-691) give the same page of every table for every query. */
module JobQuery {
  import opened Jobs
  import opened Storage
  import opened Like
  import opened Paging

  datatype JobType = Scheduled | Enqueued | Processing | Processed | Failed | Unknown(text: string)

  datatype Query = Query(query: string, queue: string, allQueues: bool, limit: uint, offset: uint)

  /** strings.TrimSpace and lower-casing; Go and the database are taken to lower-case alike. */
  datatype Text = Text(trim: string -> string, lower: string -> string)

  const DEFAULT_QUEUE := "default"

  datatype Row =
    | ScheduledRow(s: ScheduledJob)
    | EnqueuedRow(e: EnqueuedJob)
    | ProcessingRow(p: ProcessingJob)
    | ProcessedRow(d: ProcessedJob)
    | FailedRow(f: FailedJob)

  function IdOf(row: Row): JobId {
    match row
    case ScheduledRow(j) => j.id
    case EnqueuedRow(j) => j.id
    case ProcessingRow(j) => j.id
    case ProcessedRow(j) => j.id
    case FailedRow(j) => j.id
  }

  function NameOf(row: Row): string {
    match row
    case ScheduledRow(j) => j.name
    case EnqueuedRow(j) => j.name
    case ProcessingRow(j) => j.name
    case ProcessedRow(j) => j.name
    case FailedRow(j) => j.name
  }

  function QueueOf(row: Row): string {
    match row
    case ScheduledRow(j) => j.queue
    case EnqueuedRow(j) => j.queue
    case ProcessingRow(j) => j.queue
    case ProcessedRow(j) => j.queue
    case FailedRow(j) => j.queue
  }

  function TypeOf(row: Row): JobType {
    match row
    case ScheduledRow(_) => Scheduled
    case EnqueuedRow(_) => Enqueued
    case ProcessingRow(_) => Processing
    case ProcessedRow(_) => Processed
    case FailedRow(_) => Failed
  }

  /** The table of a job type. */
  function RowsOfType(t: Tables, jobType: JobType): map<JobId, Row> {
    match jobType
    case Scheduled => map id | id in t.scheduled :: ScheduledRow(t.scheduled[id])
    case Enqueued => map id | id in t.enqueued :: EnqueuedRow(t.enqueued[id])
    case Processing => map id | id in t.processing :: ProcessingRow(t.processing[id])
    case Processed => map id | id in t.processed :: ProcessedRow(t.processed[id])
    case Failed => map id | id in t.failed :: FailedRow(t.failed[id])
    case Unknown(_) => map[]
  }

  ghost predicate IsTable(rows: map<JobId, Row>, jobType: JobType) {
    forall id :: id in rows ==> IdOf(rows[id]) == id && TypeOf(rows[id]) == jobType
  }

  lemma TablesAreKeyed(t: Tables, jobType: JobType)
    requires WellKeyed(t)
    ensures IsTable(RowsOfType(t, jobType), jobType)
  {
  }

  // ---- orders ----

  /** The order of ID texts. */
  predicate TextLess(a: string, b: string) {
    if b == [] then false
    else if a == [] then true
    else a[0] < b[0] || (a[0] == b[0] && TextLess(a[1..], b[1..]))
  }

  lemma {:induction false} TextLessIsTotal(a: string, b: string)
    ensures !TextLess(a, a)
    ensures a != b ==> TextLess(a, b) || TextLess(b, a)
    ensures !(TextLess(a, b) && TextLess(b, a))
  {
    if a != [] { TextLessIsTotal(a[1..], a[1..]); }
    if a != [] && b != [] {
      TextLessIsTotal(a[1..], b[1..]);
      assert a == [a[0]] + a[1..] && b == [b[0]] + b[1..];
    }
  }

  lemma {:induction false} TextLessIsTransitive(a: string, b: string, c: string)
    requires TextLess(a, b) && TextLess(b, c)
    ensures TextLess(a, c)
  {
    if a != [] && a[0] == b[0] && b[0] == c[0] {
      TextLessIsTransitive(a[1..], b[1..], c[1..]);
    }
  }

  lemma SameBeginning(a: string, b: string, i: nat)
    requires 0 < i <= |a| && i <= |b| && a[..i] == b[..i]
    ensures a[0] == b[0]
  {
    assert a[0] == a[..i][0] && b[0] == b[..i][0];
  }

  /** One text is before another when it is a proper prefix of it, or has the smaller character where they first differ. */
  lemma {:induction false} TextLessIff(a: string, b: string)
    ensures TextLess(a, b) <==>
      a < b || exists i :: 0 <= i < |a| && i < |b| && a[..i] == b[..i] && a[i] < b[i]
  {
    if a != [] && b != [] && a[0] == b[0] {
      var x, y := a[1..], b[1..];
      TextLessIff(x, y);
      assert a == [a[0]] + x && b == [b[0]] + y;
      assert forall i :: 0 <= i <= |x| && i <= |y| ==> a[..i + 1] == [a[0]] + x[..i] && b[..i + 1] == [b[0]] + y[..i];
      if i :| 0 <= i < |a| && i < |b| && a[..i] == b[..i] && a[i] < b[i] {
        assert i > 0;
        assert x[..i - 1] == a[1..i] && y[..i - 1] == b[1..i] && x[i - 1] < y[i - 1];
        assert a[..i][1..] == b[..i][1..];
      }
      if i :| 0 <= i < |x| && i < |y| && x[..i] == y[..i] && x[i] < y[i] {
        assert a[..i + 1] == b[..i + 1] && a[i + 1] < b[i + 1];
      }
    } else if a != [] && b != [] {
      if i :| 0 <= i < |a| && i < |b| && a[..i] == b[..i] && a[i] < b[i] {
        if i > 0 { SameBeginning(a, b, i); }
      }
      assert a[..0] == b[..0];
    }
  }

  predicate NewestFirst(at: Time, id: JobId, at': Time, id': JobId) {
    if at == at' then TextLess(id, id') else at > at'
  }

  predicate OldestFirst(at: Time, id: JobId, at': Time, id': JobId) {
    if at == at' then TextLess(id, id') else at < at'
  }

  /** The comparators of Memory.ListJobs. */
  predicate MemoryBefore(a: Row, b: Row) {
    match (a, b)
    case (ScheduledRow(x), ScheduledRow(y)) => NewestFirst(x.phase.enqueueAt, x.id, y.phase.enqueueAt, y.id)
    case (EnqueuedRow(x), EnqueuedRow(y)) => OldestFirst(x.phase.enqueuedAt, x.id, y.phase.enqueuedAt, y.id)
    case (ProcessingRow(x), ProcessingRow(y)) => NewestFirst(x.phase.enqueuedAt, x.id, y.phase.enqueuedAt, y.id)
    case (ProcessedRow(x), ProcessedRow(y)) => NewestFirst(x.phase.completedAt, x.id, y.phase.completedAt, y.id)
    case (FailedRow(x), FailedRow(y)) => NewestFirst(x.phase.nextRetryAt, x.id, y.phase.nextRetryAt, y.id)
    case _ => false
  }

  /** With the ID as tie-break the comparators are strict total orders on the rows of a table. */
  lemma MemoryBeforeIsStrictTotal(a: Row, b: Row, c: Row)
    requires TypeOf(a) == TypeOf(b) == TypeOf(c)
    ensures !MemoryBefore(a, a)
    ensures !(MemoryBefore(a, b) && MemoryBefore(b, a))
    ensures IdOf(a) != IdOf(b) ==> MemoryBefore(a, b) || MemoryBefore(b, a)
    ensures MemoryBefore(a, b) && MemoryBefore(b, c) ==> MemoryBefore(a, c)
  {
    TextLessIsTotal(IdOf(a), IdOf(b));
    if TextLess(IdOf(a), IdOf(b)) && TextLess(IdOf(b), IdOf(c)) {
      TextLessIsTransitive(IdOf(a), IdOf(b), IdOf(c));
    }
  }

  // ---- what a page is ----

  predicate MatchesJobQuery(text: Text, query: Query, row: Row) {
    if query.queue != "" && QueueOf(row) != query.queue then false
    else
      var needle := text.lower(text.trim(query.query));
      needle == "" || Contains(text.lower(NameOf(row)), needle) || Contains(text.lower(IdOf(row)), needle)
  }

  function WithDefaultQueue(jobType: JobType, query: Query): Query {
    if jobType == Enqueued && query.queue == "" && !query.allQueues then query.(queue := DEFAULT_QUEUE) else query
  }

  /** `all` holds exactly the rows to keep, each once, in order. */
  ghost predicate IsListing(all: seq<Row>, rows: map<JobId, Row>, keep: Row -> bool, before: (Row, Row) -> bool) {
    && (forall i :: 0 <= i < |all| ==> IdOf(all[i]) in rows && rows[IdOf(all[i])] == all[i] && keep(all[i]))
    && (forall id :: id in rows && keep(rows[id]) ==> rows[id] in all)
    && (forall i, j :: 0 <= i < j < |all| ==> before(all[i], all[j]))
  }

  ghost predicate IsQueryListing(all: seq<Row>, t: Tables, jobType: JobType, query: Query, text: Text) {
    IsListing(all, RowsOfType(t, jobType), row => MatchesJobQuery(text, WithDefaultQueue(jobType, query), row), MemoryBefore)
  }

  datatype Reply = Page(rows: seq<Row>, hasMore: bool) | UnknownJobType

  /** `reply` answers the query: one window of the whole listing. */
  ghost predicate Answers(reply: Reply, t: Tables, jobType: JobType, query: Query, text: Text) {
    if jobType.Unknown? then reply == UnknownJobType
    else
      var limit := NormalizeJobQueryLimit(query.limit) as int;
      exists all :: IsQueryListing(all, t, jobType, query, text)
        && reply == Page(Window(all, limit, query.offset as int), query.offset as int + limit < |all|)
  }

  ghost predicate SortedBy(xs: seq<Row>, before: (Row, Row) -> bool) {
    forall i, j :: 0 <= i < j < |xs| ==> before(xs[i], xs[j])
  }

  lemma SortedHeadsAreEqual(xs: seq<Row>, ys: seq<Row>, before: (Row, Row) -> bool)
    requires SortedBy(xs, before) && SortedBy(ys, before) && xs != [] && ys != [] && xs[0] in ys && ys[0] in xs
    requires forall x, y :: x in xs && y in xs && before(x, y) ==> !before(y, x)
    ensures xs[0] == ys[0]
  {
    var k :| 0 <= k < |ys| && ys[k] == xs[0];
    var m :| 0 <= m < |xs| && xs[m] == ys[0];
  }

  lemma TailHas(xs: seq<Row>, before: (Row, Row) -> bool, x: Row)
    requires SortedBy(xs, before) && xs != []
    requires before(xs[0], xs[0]) ==> false
    ensures x in xs[1..] <==> x in xs && x != xs[0]
  {
  }

  lemma {:induction false} SortedListsAreEqual(xs: seq<Row>, ys: seq<Row>, before: (Row, Row) -> bool)
    requires SortedBy(xs, before) && SortedBy(ys, before)
    requires forall x :: x in xs <==> x in ys
    requires forall x, y :: x in xs && y in xs && before(x, y) ==> !before(y, x)
    ensures xs == ys
  {
    assert (xs == [] || xs[0] in xs) && (ys == [] || ys[0] in ys);
    if xs != [] && ys != [] {
      SortedHeadsAreEqual(xs, ys, before);
      forall x ensures x in xs[1..] <==> x in ys[1..] {
        TailHas(xs, before, x);
        TailHas(ys, before, x);
      }
      SortedListsAreEqual(xs[1..], ys[1..], before);
      assert xs == [xs[0]] + xs[1..] && ys == [ys[0]] + ys[1..];
    }
  }

  /** The listing does not depend on the order in which a map is iterated or a table is stored. */
  lemma ListingIsUnique(xs: seq<Row>, ys: seq<Row>, t: Tables, jobType: JobType, query: Query, text: Text)
    requires WellKeyed(t) && IsQueryListing(xs, t, jobType, query, text) && IsQueryListing(ys, t, jobType, query, text)
    ensures xs == ys
  {
    TablesAreKeyed(t, jobType);
    forall x, y | x in xs && y in xs && MemoryBefore(x, y) ensures !MemoryBefore(y, x) {
      MemoryBeforeIsStrictTotal(x, y, x);
    }
    SortedListsAreEqual(xs, ys, MemoryBefore);
  }

  /** A query has one answer, so any two stores that answer it agree on the page and on hasMore. */
  lemma AnswersAgree(r: Reply, r': Reply, t: Tables, jobType: JobType, query: Query, text: Text)
    requires WellKeyed(t) && Answers(r, t, jobType, query, text) && Answers(r', t, jobType, query, text)
    ensures r == r'
  {
    if !jobType.Unknown? {
      var limit := NormalizeJobQueryLimit(query.limit) as int;
      var offset := query.offset as int;
      var all :| IsQueryListing(all, t, jobType, query, text) && r == Page(Window(all, limit, offset), offset + limit < |all|);
      var all' :| IsQueryListing(all', t, jobType, query, text) && r' == Page(Window(all', limit, offset), offset + limit < |all'|);
      ListingIsUnique(all, all', t, jobType, query, text);
    }
  }
}
