/** The SELECT that listJobs builds (storage/sql.go:574-629), as a syntax tree with numbered placeholders,
    what it means, and how its rows are collected. */
module SqlListing {
  import opened Jobs
  import opened Storage
  import opened Like
  import opened Paging
  import opened JobQuery

  datatype Arg = TextArg(text: string) | NumberArg(number: nat)

  /** `queue = $n`, or `(LOWER(name) LIKE $n ESCAPE '\' OR LOWER(CAST(id AS TEXT)) LIKE $n ESCAPE '\')` */
  datatype Condition = QueueEquals(n: nat) | NameOrIdLike(n: nat)

  datatype Column = EnqueueAt | EnqueuedAt | StartedAt | CompletedAt | NextRetryAt | Id

  datatype SortKey = Asc(column: Column) | Desc(column: Column)

  /** SELECT ... FROM table WHERE c1 AND c2 ORDER BY k1, k2 LIMIT $limit OFFSET $offset */
  datatype Select = Select(
    table: JobType,
    conditions: seq<Condition>,
    orderBy: seq<SortKey>,
    limit: nat,
    offset: nat)

  // ---- meaning ----

  predicate IsText(args: seq<Arg>, n: nat) {
    1 <= n <= |args| && args[n - 1].TextArg?
  }

  predicate IsNumber(args: seq<Arg>, n: nat) {
    1 <= n <= |args| && args[n - 1].NumberArg?
  }

  predicate HasColumn(table: JobType, column: Column) {
    match column
    case Id => true
    case EnqueueAt => table.Scheduled?
    case EnqueuedAt => table.Enqueued? || table.Processing? || table.Processed?
    case StartedAt => table.Processing? || table.Processed?
    case CompletedAt => table.Processed?
    case NextRetryAt => table.Failed?
  }

  /** The database accepts the statement: placeholders are bound, patterns are valid, columns exist. */
  predicate WellFormed(q: Select, args: seq<Arg>) {
    && (forall c :: c in q.conditions ==> IsText(args, c.n) && (c.NameOrIdLike? ==> ValidPattern(args[c.n - 1].text)))
    && (forall k :: k in q.orderBy ==> HasColumn(q.table, k.column))
    && IsNumber(args, q.limit) && IsNumber(args, q.offset)
  }

  function TimeIn(row: Row, column: Column): Time
    requires HasColumn(TypeOf(row), column) && !column.Id?
  {
    match row
    case ScheduledRow(j) => j.phase.enqueueAt
    case EnqueuedRow(j) => j.phase.enqueuedAt
    case ProcessingRow(j) => if column.StartedAt? then j.phase.startedAt else j.phase.enqueuedAt
    case ProcessedRow(j) =>
      if column.StartedAt? then j.phase.startedAt
      else if column.CompletedAt? then j.phase.completedAt else j.phase.enqueuedAt
    case FailedRow(j) => j.phase.nextRetryAt
  }

  predicate Holds(c: Condition, args: seq<Arg>, row: Row, text: Text)
    requires IsText(args, c.n)
  {
    var arg := args[c.n - 1].text;
    match c
    case QueueEquals(_) => QueueOf(row) == arg
    case NameOrIdLike(_) => Matches(text.lower(NameOf(row)), arg) || Matches(text.lower(IdOf(row)), arg)
  }

  predicate Selected(q: Select, args: seq<Arg>, row: Row, text: Text)
    requires WellFormed(q, args)
  {
    forall c :: c in q.conditions ==> Holds(c, args, row, text)
  }

  /** `a` comes before `b` by the sort keys, compared one after the other. */
  predicate Ordered(keys: seq<SortKey>, a: Row, b: Row)
    requires TypeOf(a) == TypeOf(b) && forall k :: k in keys ==> HasColumn(TypeOf(a), k.column)
  {
    if keys == [] then false
    else if keys[0].column.Id? then
      var x, y := IdOf(a), IdOf(b);
      if x == y then Ordered(keys[1..], a, b) else if keys[0].Asc? then TextLess(x, y) else TextLess(y, x)
    else
      var x, y := TimeIn(a, keys[0].column), TimeIn(b, keys[0].column);
      if x == y then Ordered(keys[1..], a, b) else if keys[0].Asc? then x < y else y < x
  }

  ghost predicate IsSqlListing(all: seq<Row>, q: Select, args: seq<Arg>, t: Tables, text: Text)
    requires WellFormed(q, args)
  {
    IsListing(all, RowsOfType(t, q.table), row => Selected(q, args, row, text),
              (a, b) => TypeOf(a) == TypeOf(b) == q.table && Ordered(q.orderBy, a, b))
  }

  /** `rows` is a result of the statement: the window on the selected rows of the table, in order. */
  ghost predicate IsResult(q: Select, args: seq<Arg>, t: Tables, text: Text, rows: seq<Row>)
    requires WellFormed(q, args)
  {
    exists all :: IsSqlListing(all, q, args, t, text)
      && rows == Window(all, args[q.limit - 1].number, args[q.offset - 1].number)
  }

  // ---- building the statement ----

  /** The statement asks for what the query asks for. */
  ghost predicate Expresses(q: Select, args: seq<Arg>, jobType: JobType, query: Query, text: Text) {
    && q.table == jobType && WellFormed(q, args)
    && (forall row :: Selected(q, args, row, text) <==> MatchesJobQuery(text, WithDefaultQueue(jobType, query), row))
    && (forall a, b :: TypeOf(a) == TypeOf(b) == jobType ==> (Ordered(q.orderBy, a, b) <==> MemoryBefore(a, b)))
    && args[q.limit - 1].number == NormalizeJobQueryLimit(query.limit) as int + 1
    && args[q.offset - 1].number == query.offset as int
  }

  function OrderBy(jobType: JobType): seq<SortKey> {
    match jobType
    case Scheduled => [Desc(EnqueueAt), Asc(Id)]
    case Enqueued => [Asc(EnqueuedAt), Asc(Id)]
    case Processing => [Desc(EnqueuedAt), Asc(Id)]
    case Processed => [Desc(CompletedAt), Asc(Id)]
    case Failed => [Desc(NextRetryAt), Asc(Id)]
    case Unknown(_) => []
  }

  lemma OrderByIsMemoryOrder(jobType: JobType, a: Row, b: Row)
    requires TypeOf(a) == TypeOf(b) == jobType
    ensures forall k :: k in OrderBy(jobType) ==> HasColumn(jobType, k.column)
    ensures Ordered(OrderBy(jobType), a, b) <==> MemoryBefore(a, b)
  {
    TextLessIsTotal(IdOf(a), IdOf(b));
    var keys := OrderBy(jobType);
    assert keys[1..] == [Asc(Id)];
    assert Ordered([Asc(Id)], a, b) <==> TextLess(IdOf(a), IdOf(b)) by {
      assert [Asc(Id)][1..] == [];
    }
  }

  /** The conditions in the order in which listJobs appends them. */
  function Conditions(queue: string, needle: string): seq<Condition> {
    (if queue != "" then [QueueEquals(1)] else [])
    + (if needle != "" then [NameOrIdLike(if queue != "" then 2 else 1)] else [])
  }

  function TextArgs(queue: string, needle: string): seq<Arg> {
    (if queue != "" then [TextArg(queue)] else [])
    + (if needle != "" then [TextArg(SearchPattern(needle))] else [])
  }

  lemma ConditionsAreBound(q: Select, args: seq<Arg>, queue: string, needle: string)
    requires q.conditions == Conditions(queue, needle) && TextArgs(queue, needle) <= args
    ensures forall c :: c in q.conditions ==> IsText(args, c.n) && (c.NameOrIdLike? ==> ValidPattern(args[c.n - 1].text))
  {
    SearchPatternIsValid(needle);
  }

  lemma ConditionsMeanQuery(q: Select, args: seq<Arg>, effective: Query, row: Row, text: Text)
    requires var needle := text.lower(text.trim(effective.query));
      && WellFormed(q, args)
      && q.conditions == Conditions(effective.queue, needle) && TextArgs(effective.queue, needle) <= args
    ensures Selected(q, args, row, text) <==> MatchesJobQuery(text, effective, row)
  {
    hide Contains, SearchPattern, Matches;
    var needle := text.lower(text.trim(effective.query));
    SearchIsContains(text.lower(NameOf(row)), needle);
    SearchIsContains(text.lower(IdOf(row)), needle);
    if effective.queue != "" {
      assert q.conditions[0] == QueueEquals(1) && args[0] == TextArg(effective.queue);
      assert q.conditions[0] in q.conditions;
    }
    if needle != "" {
      var last := q.conditions[|q.conditions| - 1];
      assert last in q.conditions && last.NameOrIdLike? && args[last.n - 1] == TextArg(SearchPattern(needle));
    }
  }

  lemma StatementExpresses(q: Select, args: seq<Arg>, jobType: JobType, query: Query, text: Text)
    requires var effective := WithDefaultQueue(jobType, query);
      var needle := text.lower(text.trim(effective.query));
      && q.conditions == Conditions(effective.queue, needle) && TextArgs(effective.queue, needle) <= args
      && q.table == jobType && q.orderBy == OrderBy(jobType) && IsNumber(args, q.limit) && IsNumber(args, q.offset)
      && args[q.limit - 1].number == NormalizeJobQueryLimit(query.limit) as int + 1
      && args[q.offset - 1].number == query.offset as int
    ensures Expresses(q, args, jobType, query, text)
  {
    var effective := WithDefaultQueue(jobType, query);
    ConditionsAreBound(q, args, effective.queue, text.lower(text.trim(effective.query)));
    ColumnsExist(jobType);
    forall row ensures Selected(q, args, row, text) <==> MatchesJobQuery(text, effective, row) {
      ConditionsMeanQuery(q, args, effective, row, text);
    }
    forall a, b | TypeOf(a) == jobType && TypeOf(b) == jobType
      ensures Ordered(OrderBy(jobType), a, b) <==> MemoryBefore(a, b)
    {
      OrderByIsMemoryOrder(jobType, a, b);
    }
  }

  method BuildListJobs(jobType: JobType, query: Query, text: Text) returns (r: Option<(Select, seq<Arg>)>)
    ensures r.None? <==> jobType.Unknown?
    ensures r.Some? ==> Expresses(r.value.0, r.value.1, jobType, query, text)
  {
    if jobType.Unknown? {
      return None;
    }
    var jobQuery := query;
    if jobType == Enqueued && jobQuery.queue == "" && !jobQuery.allQueues {
      jobQuery := jobQuery.(queue := DEFAULT_QUEUE);
    }
    var args: seq<Arg> := [];
    var conditions: seq<Condition> := [];
    if jobQuery.queue != "" {
      args := args + [TextArg(jobQuery.queue)];
      conditions := conditions + [QueueEquals(|args|)];
    }
    var needle := text.lower(text.trim(jobQuery.query));
    if needle != "" {
      args := args + [TextArg(SearchPattern(needle))];
      conditions := conditions + [NameOrIdLike(|args|)];
    }
    assert conditions == Conditions(jobQuery.queue, needle) && args == TextArgs(jobQuery.queue, needle);
    args := args + [NumberArg(NormalizeJobQueryLimit(jobQuery.limit) as int + 1)];
    var limit := |args|;
    args := args + [NumberArg(jobQuery.offset as int)];
    var q := Select(jobType, conditions, OrderBy(jobType), limit, |args|);

    StatementExpresses(q, args, jobType, query, text);
    r := Some((q, args));
  }

  lemma ColumnsExist(jobType: JobType)
    ensures forall k :: k in OrderBy(jobType) ==> HasColumn(jobType, k.column)
  {
  }

  // ---- collecting the rows ----

  /** collectJobRows: None when scanning a row fails or the rows end with an error. */
  method CollectJobRows(rows: seq<Option<Row>>, rowsErr: bool, limit: uint) returns (r: Option<(seq<Row>, bool)>)
    ensures r.None? <==> rowsErr || None in rows
    ensures r.Some? ==> exists jobs: seq<Row> ::
      && |jobs| == |rows| && (forall i :: 0 <= i < |rows| ==> rows[i] == Some(jobs[i]))
      && r.value == TrimLookahead(jobs, limit)
  {
    var jobs: seq<Row> := [];
    for n := 0 to |rows|
      invariant |jobs| == n && forall i :: 0 <= i < n ==> rows[i] == Some(jobs[i])
    {
      if rows[n].None? {
        return None;
      }
      jobs := jobs + [rows[n].value];
    }
    if rowsErr {
      return None;
    }
    var hasMore := |jobs| > limit as int;
    ghost var all := jobs;
    if hasMore {
      jobs := jobs[..limit];
    }
    assert (jobs, hasMore) == TrimLookahead(all, limit);
    r := Some((jobs, hasMore));
  }

  // ---- the page ----

  /** Any result of the statement, trimmed to the limit, answers the query: the same page and the same
      hasMore as Memory.ListJobs, for every table, job type and query. */
  lemma SqlAnswers(q: Select, args: seq<Arg>, rows: seq<Row>, t: Tables, jobType: JobType, query: Query, text: Text)
    requires !jobType.Unknown? && WellKeyed(t) && Expresses(q, args, jobType, query, text) && IsResult(q, args, t, text, rows)
    ensures var (page, hasMore) := TrimLookahead(rows, NormalizeJobQueryLimit(query.limit));
      Answers(Page(page, hasMore), t, jobType, query, text)
  {
    var limit := NormalizeJobQueryLimit(query.limit);
    var offset := query.offset as int;
    var all :| IsSqlListing(all, q, args, t, text) && rows == Window(all, limit as int + 1, offset);
    TablesAreKeyed(t, jobType);
    assert IsQueryListing(all, t, jobType, query, text);
    WindowTrims(all, limit, offset);
  }

  lemma WindowTrims(all: seq<Row>, limit: uint, offset: nat)
    requires limit >= 1
    ensures TrimLookahead(Window(all, limit as int + 1, offset), limit)
         == (Window(all, limit as int, offset), offset + limit as int < |all|)
  {
    var longer, page := Window(all, limit as int + 1, offset), Window(all, limit as int, offset);
    if |longer| <= limit as int {
      assert longer == page;
    } else {
      assert longer[..limit] == page;
    }
  }

  /** SQL and Memory agree: whatever Memory.ListJobs returns is what the trimmed result of the statement is. */
  lemma SqlAgreesWithMemory(q: Select, args: seq<Arg>, rows: seq<Row>, reply: Reply,
                            t: Tables, jobType: JobType, query: Query, text: Text)
    requires !jobType.Unknown? && WellKeyed(t) && Expresses(q, args, jobType, query, text) && IsResult(q, args, t, text, rows)
    requires Answers(reply, t, jobType, query, text)
    ensures reply.Page? && (reply.rows, reply.hasMore) == TrimLookahead(rows, NormalizeJobQueryLimit(query.limit))
  {
    SqlAnswers(q, args, rows, t, jobType, query, text);
    var (page, hasMore) := TrimLookahead(rows, NormalizeJobQueryLimit(query.limit));
    AnswersAgree(reply, Page(page, hasMore), t, jobType, query, text);
  }
}
