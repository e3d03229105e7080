/** What the dashboard shows, said of any reply that answers a query, whichever store gave it: which rows, in
    which order, and how many. */
module Pages {
  import opened Jobs
  import opened Storage
  import opened Like
  import opened Paging
  import opened JobQuery

  /** The rows of the page are a stretch of the whole listing. */
  lemma PageOf(reply: Reply, t: Tables, jobType: JobType, query: Query, text: Text) returns (all: seq<Row>, start: nat)
    requires !jobType.Unknown? && Answers(reply, t, jobType, query, text)
    ensures reply.Page? && IsQueryListing(all, t, jobType, query, text)
    ensures start == Min(query.offset as int, |all|)
    ensures start + |reply.rows| <= |all| && reply.rows == all[start..start + |reply.rows|]
    ensures |reply.rows| == Min(NormalizeJobQueryLimit(query.limit) as int, |all| - start)
    ensures reply.hasMore <==> query.offset as int + NormalizeJobQueryLimit(query.limit) as int < |all|
  {
    hide IsQueryListing;
    var limit := NormalizeJobQueryLimit(query.limit) as int;
    all :| IsQueryListing(all, t, jobType, query, text)
      && reply == Page(Window(all, limit, query.offset as int), query.offset as int + limit < |all|);
    start := Min(query.offset as int, |all|);
  }

  lemma InListing(all: seq<Row>, t: Tables, jobType: JobType, query: Query, text: Text, i: nat, j: nat)
    requires IsQueryListing(all, t, jobType, query, text) && IsTable(RowsOfType(t, jobType), jobType) && i < j < |all|
    ensures TypeOf(all[i]) == TypeOf(all[j]) == jobType && MemoryBefore(all[i], all[j])
  {
    hide MemoryBefore, RowsOfType, MatchesJobQuery, WithDefaultQueue;
  }

  /** Two rows of a page, and the whole listing before it, are in the order of the comparator. */
  lemma PageInOrder(reply: Reply, t: Tables, jobType: JobType, query: Query, text: Text, i: nat, j: nat)
    requires !jobType.Unknown? && WellKeyed(t) && Answers(reply, t, jobType, query, text) && i < j < |reply.rows|
    ensures reply.Page? && TypeOf(reply.rows[i]) == TypeOf(reply.rows[j]) == jobType && MemoryBefore(reply.rows[i], reply.rows[j])
  {
    hide MemoryBefore, RowsOfType, MatchesJobQuery, Answers, WithDefaultQueue;
    var all, start := PageOf(reply, t, jobType, query, text);
    TablesAreKeyed(t, jobType);
    InListing(all, t, jobType, query, text, start + i, start + j);
  }

  // ---- in which order ----

  /** The queue is listed oldest first, and then by ID. */
  lemma QueueIsOldestFirst(reply: Reply, t: Tables, query: Query, text: Text, i: nat, j: nat)
    requires WellKeyed(t) && Answers(reply, t, Enqueued, query, text) && i < j < |reply.rows|
    ensures reply.rows[i].EnqueuedRow? && reply.rows[j].EnqueuedRow?
    ensures var a, b := reply.rows[i].e, reply.rows[j].e;
      a.phase.enqueuedAt < b.phase.enqueuedAt || (a.phase.enqueuedAt == b.phase.enqueuedAt && TextLess(a.id, b.id))
  {
    hide Answers;
    PageInOrder(reply, t, Enqueued, query, text, i, j);
  }

  /** The schedule is listed with the latest EnqueueAt first, and then by ID. */
  lemma ScheduleIsLatestFirst(reply: Reply, t: Tables, query: Query, text: Text, i: nat, j: nat)
    requires WellKeyed(t) && Answers(reply, t, Scheduled, query, text) && i < j < |reply.rows|
    ensures reply.rows[i].ScheduledRow? && reply.rows[j].ScheduledRow?
    ensures var a, b := reply.rows[i].s, reply.rows[j].s;
      a.phase.enqueueAt > b.phase.enqueueAt || (a.phase.enqueueAt == b.phase.enqueueAt && TextLess(a.id, b.id))
  {
    hide Answers;
    PageInOrder(reply, t, Scheduled, query, text, i, j);
  }

  lemma ProcessingIsLatestFirst(reply: Reply, t: Tables, query: Query, text: Text, i: nat, j: nat)
    requires WellKeyed(t) && Answers(reply, t, Processing, query, text) && i < j < |reply.rows|
    ensures reply.rows[i].ProcessingRow? && reply.rows[j].ProcessingRow?
    ensures var a, b := reply.rows[i].p, reply.rows[j].p;
      a.phase.enqueuedAt > b.phase.enqueuedAt || (a.phase.enqueuedAt == b.phase.enqueuedAt && TextLess(a.id, b.id))
  {
    hide Answers;
    PageInOrder(reply, t, Processing, query, text, i, j);
  }

  lemma ProcessedIsLatestFirst(reply: Reply, t: Tables, query: Query, text: Text, i: nat, j: nat)
    requires WellKeyed(t) && Answers(reply, t, Processed, query, text) && i < j < |reply.rows|
    ensures reply.rows[i].ProcessedRow? && reply.rows[j].ProcessedRow?
    ensures var a, b := reply.rows[i].d, reply.rows[j].d;
      a.phase.completedAt > b.phase.completedAt || (a.phase.completedAt == b.phase.completedAt && TextLess(a.id, b.id))
  {
    hide Answers;
    PageInOrder(reply, t, Processed, query, text, i, j);
  }

  lemma FailedIsLatestFirst(reply: Reply, t: Tables, query: Query, text: Text, i: nat, j: nat)
    requires WellKeyed(t) && Answers(reply, t, Failed, query, text) && i < j < |reply.rows|
    ensures reply.rows[i].FailedRow? && reply.rows[j].FailedRow?
    ensures var a, b := reply.rows[i].f, reply.rows[j].f;
      a.phase.nextRetryAt > b.phase.nextRetryAt || (a.phase.nextRetryAt == b.phase.nextRetryAt && TextLess(a.id, b.id))
  {
    hide Answers;
    PageInOrder(reply, t, Failed, query, text, i, j);
  }

  /** The first row of the first page of a queue is no younger than any job that the query asks for. */
  lemma FirstIsOldest(reply: Reply, t: Tables, query: Query, text: Text, id: JobId)
    requires WellKeyed(t) && Answers(reply, t, Enqueued, query, text) && query.offset == 0
    requires id in t.enqueued && Asked(t.enqueued[id], Enqueued, query, text)
    ensures reply.rows != [] && reply.rows[0].EnqueuedRow?
    ensures reply.rows[0].e.phase.enqueuedAt <= t.enqueued[id].phase.enqueuedAt
  {
    WantedAreMatched(EnqueuedRow(t.enqueued[id]), Enqueued, query, text);
    var all, start := PageOf(reply, t, Enqueued, query, text);
    TablesAreKeyed(t, Enqueued);
    var row := RowsOfType(t, Enqueued)[id];
    assert row in all;
    var k :| 0 <= k < |all| && all[k] == row;
    assert reply.rows[0] == all[0];
    if k > 0 { assert MemoryBefore(all[0], all[k]); }
  }

  // ---- which rows ----

  /** What the query asks for: its queue, the default queue when it names none and asks for the enqueued jobs of
      not all queues, and its trimmed text, in any case, somewhere in the name or the ID. */
  predicate Asked<T>(job: Job<T>, jobType: JobType, query: Query, text: Text) {
    && (query.queue != "" ==> job.queue == query.queue)
    && (query.queue == "" && jobType == Enqueued && !query.allQueues ==> job.queue == "default")
    && (|| Contains(text.lower(job.name), text.lower(text.trim(query.query)))
        || Contains(text.lower(job.id), text.lower(text.trim(query.query))))
  }

  predicate Wanted(row: Row, jobType: JobType, query: Query, text: Text) {
    match row
    case ScheduledRow(j) => Asked(j, jobType, query, text)
    case EnqueuedRow(j) => Asked(j, jobType, query, text)
    case ProcessingRow(j) => Asked(j, jobType, query, text)
    case ProcessedRow(j) => Asked(j, jobType, query, text)
    case FailedRow(j) => Asked(j, jobType, query, text)
  }

  lemma WantedAreMatched(row: Row, jobType: JobType, query: Query, text: Text)
    ensures MatchesJobQuery(text, WithDefaultQueue(jobType, query), row) <==> Wanted(row, jobType, query, text)
  {
    EverythingContainsNothing(text.lower(NameOf(row)));
  }

  lemma EverythingContainsNothing(s: string)
    ensures Contains(s, "")
  {
    assert "" <= s[0..];
  }

  /** Every row of a page is a row of the table that is asked for. */
  lemma PageHoldsOnlyWanted(reply: Reply, t: Tables, jobType: JobType, query: Query, text: Text, i: nat)
    requires !jobType.Unknown? && WellKeyed(t) && Answers(reply, t, jobType, query, text) && i < |reply.rows|
    ensures var row := reply.rows[i];
      && IdOf(row) in RowsOfType(t, jobType) && RowsOfType(t, jobType)[IdOf(row)] == row
      && Wanted(row, jobType, query, text)
  {
    hide MatchesJobQuery, Wanted, RowsOfType, WithDefaultQueue, Answers, IsQueryListing;
    var all, start := PageOf(reply, t, jobType, query, text);
    assert reply.rows[i] == all[start + i];
    ListedRow(all, t, jobType, query, text, start + i);
    WantedAreMatched(reply.rows[i], jobType, query, text);
  }

  lemma ListedRow(all: seq<Row>, t: Tables, jobType: JobType, query: Query, text: Text, k: nat)
    requires IsQueryListing(all, t, jobType, query, text) && k < |all|
    ensures IdOf(all[k]) in RowsOfType(t, jobType) && RowsOfType(t, jobType)[IdOf(all[k])] == all[k]
    ensures MatchesJobQuery(text, WithDefaultQueue(jobType, query), all[k])
  {
    hide MemoryBefore, MatchesJobQuery, RowsOfType, WithDefaultQueue;
  }

  /** A first page with no more behind it holds exactly the rows of the table that are asked for. */
  lemma LonePageHoldsAllWanted(reply: Reply, t: Tables, jobType: JobType, query: Query, text: Text, row: Row)
    requires !jobType.Unknown? && WellKeyed(t) && Answers(reply, t, jobType, query, text)
    requires query.offset == 0 && !reply.hasMore
    ensures row in reply.rows <==>
      && IdOf(row) in RowsOfType(t, jobType) && RowsOfType(t, jobType)[IdOf(row)] == row && Wanted(row, jobType, query, text)
  {
    hide MemoryBefore, MatchesJobQuery, Wanted;
    var all, start := PageOf(reply, t, jobType, query, text);
    assert reply.rows == all;
    WantedAreMatched(row, jobType, query, text);
    TablesAreKeyed(t, jobType);
    if row in all {
      var k :| 0 <= k < |all| && all[k] == row;
    }
  }

  // ---- how many ----

  /** A page has at most the limit that was asked for, 25 rows if none was, and never more than 100; it is full
      whenever there are more rows behind it. */
  lemma PageSize(reply: Reply, t: Tables, jobType: JobType, query: Query, text: Text)
    requires !jobType.Unknown? && Answers(reply, t, jobType, query, text)
    ensures reply.Page?
    ensures var limit := if query.limit == 0 then 25 else if query.limit > 100 then 100 else query.limit as int;
      |reply.rows| <= limit && (reply.hasMore ==> |reply.rows| == limit)
  {
    var all, start := PageOf(reply, t, jobType, query, text);
  }
}
