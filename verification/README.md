# xwork: a verified model

xwork keeps every job as a record in one of five tables (scheduled, enqueued, processing, processed,
failed) and moves it between them in transactions that many goroutines run at once: workers, the scheduled
mover, the retry mover, the orphan checker, the heartbeat emitter, submitters and dashboard users. Most of
them read a snapshot first and act on it later. This project models that protocol, the in-memory store, the
job search and the stack-trace filter, and proves what they keep.

## The parts

* `Jobs`, `Storage`, `Lifecycle`: the records, the tables with the meaning of each storage call, and the
  transaction bodies of `process.go` and `server.go`, as functions. `JobRows` looks at one ID at a time.
* `OpenRegime`: any number of processors, snapshots of any age, used any number of times, in any order,
  with any clock; each transaction is one step, and the storage may refuse any of them. `Guards` says exactly
  which steps keep a job in one place. `Provenance` traces every field of every record to the step that wrote it, and
  `Effects` says field by field what each transaction leaves behind. `Timing` and `Backoff` give the processors one clock that does not run
  backwards and prove that jobs are never early and retries back off. `Queueing` is the order of a queue, and
  `QueueRuns` the queues of a whole run.
* `SingleProcessor`: one processor with the local state of each goroutine, one clock, batches that are worked
  off item by item while everybody else runs, web retries, a shutdown that stops the emitter and the checker
  while workers go on, and a process that may die and restart at any moment. `Refinement` shows that each of its
  runs is a run of the open regime. `Mover`, `ScheduleOrder`, `ProcessorTiming` and `Attempts` are about all runs:
  what the scheduled mover holds, the order of the schedule, time, and how often a job can start. `Exclusivity` and
  `Progress` are about orderly runs (see below): one place for each job, and an exact count of attempts. `Ways` are
  continuations of a run; `Disorder`, `LateDelete` (after the job of `OneJob` has failed once) and `EarlyRetries`
  are about what can go wrong, and exactly when.
* `JobMaps`, `Memory` (module `MemoryStore`), `Transactions`, `Isolation`: `storage.Memory` on the heap, with
  pointers to job structs and shared payload maps, transactions that clone and swap, and callers that hold on
  to what they get. `Processor` (module `ProcessorCode`) is the code of `process.go` on that store; each method
  takes exactly the steps of the open regime that it is named after, so the theorems about runs hold of the code.
* `Heartbeats`: why heartbeats without a row cannot be seen.
* `Like`, `Paging`, `JobQuery`, `SqlListing`: the dashboard's search in memory and in SQL. `Pages` says which rows an
  answer holds, in which order and how many, whichever of the two gave it.
* `StackTrace`: the filter on panic stacks.

## Assumptions

Every run of the single processor is one in which

1. the emitter begins a new walk over `processingJobs` at most 3 s after it began the last one, and each
   heartbeat write succeeds; once a shutdown has reached the emitter, the orphan checker begins no round later
   than 3 s after the last walk began;
2. a worker registers its job in `processingJobs` at most 3 s after it stamped `StartedAt`;
3. handlers leave the job they are given unchanged, IDs are fresh, and the clock does not run backwards.

The theorems on single transactions, conservation, time stamps, early jobs, backoff, queue order and the number
of attempts (`Attempts`) need no more than that, and those of the open regime need neither of the first two. The
safety theorems of `Exclusivity` and the exact counts of `Progress` are about orderly runs, in which also

4. no worker registers a job while an earlier worker's deferred `processingJobs.Delete` of the same ID is
   still to come, unless the emitter or the orphan checker has stopped for good (`Exclusivity.Orderly`).

The code does not guarantee the fourth. `processJob` deletes its entry after `fail` has committed
(process.go:336), keyed by ID alone. If a dashboard user retries the job in between, a second worker can
register it first, and the late Delete then takes the second worker's entry: nobody beats for a job that is
being worked on. The fourth assumption is exact: `Disorder.RegisterIsSafeIff`, `Disorder.LiveJobsAreSafeIff` and
`Progress.ArrowsAreSafeIff` show that a registration that meets it is safe whatever happens afterwards, and that
after any other there is a way on, with no further breach, on which the orphan checker fails the live job, the
job ends in two places, and a failed or discarded job becomes processed. `LateDelete` has two such runs in full,
in one of which a retry count is used twice, and says exactly when one Delete is harmless. Even then a job starts
at most 2^k times with retry count k (`Attempts.StartsDoubleAtMost`).

## Where the code is not what its documentation or a reader expects

* The README of xwork says that shutdown requeues interrupted jobs (README.md:63). `requeue` (process.go:459-475)
  is never called; an interrupted job is left in processing until an orphan checker fails it. The model follows the code.
* `complete` and `failWithStack` do not check that the processing row is still there, and `enqueueScheduled`
  inserts even if its delete removed nothing, so with several processors an ID can be in several tables.
  `Guards.ExclusiveStepIff` and `Guards.AlwaysExclusiveIff` say exactly which rows each step has to find for a job
  to stay in one place, and `Guards.StaleMoveEnqueuesAgain` is a run in which a completed job is queued again.
* A web retry claims a failed job whether or not it is due, and the retry mover claims by ID what it read as
  due, even if a failure that is not due has taken its place since. `EarlyRetries.LeavesEarlyIff` says exactly
  when a job leaves failed early; both cases have a concrete run. "No retry is early" holds for a
  job that has not been retried by hand.
* A job whose insert into the schedule commits after the mover has read its batch can be overtaken by a later
  one in that batch. `ScheduleOrder.LateInsertIff` says exactly when some job can be.
* Cleaning a stack trace twice can drop a line that cleaning it once keeps, if a frame without a file line comes
  before a frame whose file line starts like a library frame (`StackTrace.SecondCleaningDropsALine`). The Go runtime
  writes no such frame. `StackTrace.IdempotentIff` says exactly when nothing changes.

## Model

| member | source | states |
|---|---|---|
| OpenRegime.StepRows | process.go:391-457 | each transaction does to the rows of its job what the per-job machine says, commits or rolls back accordingly, and touches no other job |
| OpenRegime.RunsAreSound | process.go:391-527 | in every run with any number of processors and arbitrarily stale snapshots: every stored or held copy of an ID has the accepted name, queue, payload and ScheduledAt; every accepted job is in some table or was discarded; retry counts are 0..19, in failed 1..19, and a retry count k was reached through attempt k-1 |
| OpenRegime.DiscardedAfterTwentyAttempts | process.go:488-500 | a job is discarded only after each of its twenty attempts (retry counts 0 to 19) was handed to a worker |
| OpenRegime.ProcessedIsPermanent | storage/memory.go:262-270 | a processed record, once written, is never changed or removed by any later step of any run |
| OpenRegime.ClaimConservation | process.go:582-618 | for every ID and run, committed failed inserts equal committed claims plus one if the record is still in failed; rolled-back claims count for nothing |
| OpenRegime.ClaimsRequeue | server.go:339-374 | a committed claim, by mover or web caller, leaves the job in its queue with the claimed retry count, or with the copy that was queued already |
| Provenance.ScheduledWasWritten | process.go:391-404 | in every run of any number of processors by any clocks, a record in the schedule is the job that one Accept step submitted, whose time had not passed at the reading of the clock that was compared |
| Provenance.QueuedWasWritten | process.go:391-404 | a queued record was written by a step of the run: its EnqueuedAt is the time of that step (the second reading, for a submission), and its retry count is 0, or after a retry that of the record then in failed |
| Provenance.ClaimWasWritten | process.go:406-435 | every copy that was ever handed to a worker or checker has the StartedAt of a Dequeue step of its ID, and the EnqueuedAt, retry count and queue of the record that was queued before that step |
| Provenance.ProcessingWasWritten | process.go:406-435 | and so does every row in processing |
| Provenance.ProcessedWasWritten | process.go:437-457 | a processed record has the StartedAt and EnqueuedAt of a claim of its ID, and the time of the Complete step that wrote it |
| Provenance.ProcessedKeepsItsTimes | process.go:437-448 | so it has the EnqueuedAt of the record that an earlier Dequeue step of the run took, and that step's time as StartedAt |
| Provenance.FailedWasWritten | process.go:481-527 | a failed record has the text and time of the Fail step that wrote it, the retry count of the claim it failed plus one, from 1 to 19, and is due that count cubed in minutes after that time |
| Provenance.HeartbeatWasWritten | process.go:242-250 | a heartbeat has the time of a Heartbeat or Dequeue step of its ID |
| Provenance.RecordsCarryTheRequest | process.go:391-527 | every record and every claim of an ID has the name, queue, payload and ScheduledAt of the one job that an Accept step of the run submitted under it |
| Effects.EnqueueEffect | process.go:391-404 | a job whose time has passed is queued with retry count 0 and the second reading of the clock, any other is scheduled as it is; each is refused exactly when its ID is in that table; no other job or table changes |
| Effects.EnqueueScheduledEffect | process.go:636-652 | the job is out of the schedule and queued at that time with retry count 0; refused as already enqueued exactly when its ID is queued |
| Effects.DequeueEffect | process.go:406-435 | the job is out of its queue and in processing, with that time as StartedAt and first heartbeat, and with its EnqueuedAt and retry count; refused exactly when its ID is in processing |
| Effects.CompleteEffect | process.go:437-457 | row and heartbeat are gone, and processed holds the job with its EnqueuedAt and StartedAt and that time as CompletedAt; refused exactly when its ID is in processed |
| Effects.FailEffect | process.go:481-527 | row and heartbeat are gone; at retry count 19 nothing else happens, and below it failed holds the job with the text, the next count n and a due time n^3 minutes later, refused exactly when its ID is in failed |
| Effects.RetryEffect | process.go:582-618 | the record is out of failed and queued at that time with its retry count, or the copy that is queued already stays as it is; without a record nothing happens; no refusal |
| Effects.WebRetryEffect | server.go:339-374 | the same, except that a missing record and a queued copy are errors of their own |
| Guards.ExclusiveStepIff | process.go:437-527 | where every job is in one place, a step keeps it so if and only if it finds what the code does not check: a move its scheduled row or a queued copy, a completion a processing or processed row, a failure a processing row, or else the failed row or discard mark that it would add |
| Guards.AlwaysExclusiveIff | process.go:391-667 | a run of any number of processors has every job in exactly one place at all times if and only if each of its steps meets that guard |
| Guards.StaleMoveEnqueuesAgain | process.go:636-652 | a concrete run in which a second mover's old snapshot queues a completed job again |
| Refinement.RunsRefineTheOpenRegime | process.go:198-332 | after every run of the single processor, orderly or not, the tables and history are those of a run of the open regime |
| Refinement.EveryRunIsSound | process.go:334-389 | even with a late Delete no run of the processor loses a job, alters a copy or exceeds the retry bounds |
| Exclusivity.ActionIsOpenStep | process.go:620-667 | in an orderly run each mover, worker and orphan checker works from the record that is still in the table, however long ago it read it |
| Exclusivity.OrderlyRunsAreSafe | process.go:198-457 | the invariant of orderly runs: each accepted ID is in exactly one of the five tables or discarded, live workers own distinct rows, pending batches are current, and, as long as the orphan checker runs, live workers are visible to the emitter and their heartbeats fresh, or in a shutdown as recent as the last walk left them |
| Exclusivity.CountsAddUp | storage/memory.go:484-504 | in every orderly run the five Counts and the discarded jobs add up to the number of accepted jobs |
| Exclusivity.LiveJobsAreNeverOrphaned | process.go:194-257 | in every orderly run a job that a worker holds is in no pending orphan batch, and its row is not older than any cutoff as long as the checker begins rounds, also after a shutdown has begun |
| LateDelete.DeleteIsHarmlessIff | process.go:334-336 | a deferred Delete keeps all registered jobs visible if and only if no other registered worker has the same job |
| LateDelete.DisorderHidesTheJob | process.go:334-336 | in any state, registering a job whose earlier worker has its Delete still to come enables a step after which a working job is hidden from the emitter |
| LateDelete.LateDeleteOrphansALiveJob | process.go:205-226 | a concrete run that meets every timing assumption and in which the checker selects the row of a working job |
| LateDelete.LateDeleteBreaksExclusivity | process.go:437-457 | that run continued: the live job is failed as an orphan, completes, and is in two tables at once |
| LateDelete.LateDeleteRepeatsAnAttempt | process.go:481-527 | that run continued otherwise: the job goes from processing at retry count 2 back to failed at 2, which is no arrow of the lifecycle, and two workers then hold it at retry count 2 |
| Disorder.DisorderDoesHarm | process.go:334-336 | after any orderly run, from any disorderly registration while the orphan checker runs, a way on is constructed with no further breach on which the checker selects the live job and the job ends in two places |
| Disorder.RegisterIsSafeIff | process.go:334-336 | a registration is orderly if and only if every job stays in exactly one place on every orderly way on from it |
| Disorder.LiveJobsAreSafeIff | process.go:205-226 | and if and only if on every such way on no orphan batch ever holds a job that a worker holds |
| Progress.EveryMoveIsAnArrow | process.go:391-527 | wherever the invariant of orderly runs holds, any action leaves a job where it is or moves it along an arrow of the lifecycle, with retry counts that grow by one at each failure |
| Progress.StartsAreCounted | process.go:406-435 | in every orderly run a record with retry count k stands for exactly k committed claims before it, and no job is claimed more than twenty times |
| Progress.MovesAreBounded | process.go:582-652 | in every orderly run each move of a job costs rank (scheduled 60, failed r 60-3r, enqueued r 59-3r, processing r 58-3r, ended 0), so moves made plus rank left never exceed sixty |
| Progress.TotalMovesAreBounded | process.go:669 | N accepted jobs make at most 60 N moves in an orderly run of any length |
| Progress.ArrowsAreSafeIff | process.go:334-336 | after an orderly run, a registration is orderly if and only if on every orderly way on from it each action keeps each job in its place or moves it along an arrow |
| Attempts.FailsAreBounded | process.go:481-527 | in every run, orderly or not, the committed failures of a job at any retry counts, plus the workers, row and checker's copy that can still fail it there, are at most twice its starts there |
| Attempts.StartsAreFed | process.go:582-652 | in every run the starts at retry count k, plus the records that can lead to one, are at most the failures at k-1, or one at zero |
| Attempts.StartsDoubleAtMost | process.go:406-435 | in every run a job starts at most 2^k times with retry count k |
| Attempts.StartsAreFinite | process.go:669 | and so fewer than 2^20 times in all |
| Attempts.ChangesAreFinite | process.go:391-667 | in every run of any length the records of a job in the five tables change at most 5 * 2^20 - 2 times |
| Mover.ScheduledJobsAreUntouched | process.go:636-652 | in every run of any number of processors a job in the schedule is in no other table and no worker was ever handed it |
| Mover.MoveCommits | process.go:654-667 | so whatever the single processor's mover still holds can be moved, unless the storage refuses |
| Timing.TotalBackoffFormula | process.go:671-694 | the waits 1 + 8 + ... + k^3 add up to (k(k+1)/2)^2 minutes |
| Timing.LastRetryTotal | process.go:689-693 | the last retry comes 36100 minutes after the first failure, 25 days, 1 hour and 40 minutes |
| Timing.BackoffIsExact | process.go:695-697 | for every retry count a job can have, the 64-bit duration does not wrap and is exactly k^3 minutes |
| Timing.StampsAreInOrder | process.go:406-448 | for any number of processors under one clock: ScheduledAt <= EnqueuedAt <= StartedAt <= CompletedAt on every record and every copy, and a failure is due exactly k^3 minutes after it happened |
| Timing.NeverEarly | process.go:391-404 | for any number of processors under one clock, as long as a moved snapshot was due when it was read, no job leaves the schedule, or skips it, before the time its submitter asked for |
| ProcessorTiming.StampsAreInOrder | process.go:406-448 | the same order of stamps in every run of the processor, orderly or not |
| ProcessorTiming.NeverEarly | storage/memory.go:104-119 | in every run of the processor no job is early: its mover only holds snapshots that were due when they were read |
| ScheduleOrder.EarlierEntersFirst | storage/memory.go:104-119 | in every run with sorted reads and no late insert, of two jobs in the schedule the strictly earlier one enters its queue first, also when a batch is cut short |
| ScheduleOrder.LateInsertIff | process.go:391-404 | after any prompt run, an insert into the schedule is not earlier than any job in the mover's batch if and only if on every prompt way on, of any two jobs in the schedule, the strictly earlier one leaves it first |
| ScheduleOrder.LateInsertIsOvertaken | process.go:654-667 | a concrete run in which a job inserted behind the mover's read is overtaken by a later one |
| Backoff.BackoffIsCumulative | process.go:515-524 | for any number of processors under one clock, a failed record with retry count k is due no earlier than (k(k+1)/2)^2 minutes after that job's first failure, if each claim of its record came when it was due |
| Backoff.LastAttemptComesLate | process.go:671-694 | and the twentieth attempt starts no earlier than 36100 minutes after the first failure |
| ProcessorTiming.BackoffIsCumulative | process.go:515-524 | in every run of the processor the cumulative backoff holds of each job that nobody retries by hand |
| ProcessorTiming.LastAttemptComesLate | process.go:671-694 | and so does the bound on the twentieth attempt |
| ProcessorTiming.NoRetryIsEarly | process.go:620-634 | in every run a job that nobody retries by hand leaves failed only through the retry mover and only when its record is due, although the mover does not recheck |
| EarlyRetries.LeavesEarlyIff | process.go:582-618 | after any run a job leaves failed early if and only if its record is not due and either a web caller takes it while no copy is queued, or the retry mover comes to an entry it once read for that ID |
| EarlyRetries.EarlyMoverMeansReplaced | process.go:585-593 | the mover is only early on a record other than the one it read, and only for a job that was retried by hand before |
| EarlyRetries.WebRetryIsEarly | server.go:339-374 | a concrete run in which a dashboard user retries a job a minute before it is due |
| EarlyRetries.MoverIsEarly | process.go:620-634 | a concrete run in which the retry mover, after such a web retry, takes a failure eight minutes before it is due |
| Queueing.WaitIsBounded | storage/memory.go:169-187 | whatever stamps later inserts carry, a job waits while its queue has had no more claims than jobs ahead of it, and no longer than until they outnumber those not behind it and those inserted since with a stamp that is not later |
| Queueing.NoOvertaking | storage/memory.go:169-187 | so a job with k older jobs in its queue, none of its own age and none inserted since with a stamp that is not later, is waiting exactly while that queue has had at most k claims |
| Queueing.ReturnedByClaim | storage/memory.go:169-187 | the claim that returns it is the (k+1)-th on its queue and no other |
| Queueing.OtherQueuesUnchanged | storage/memory.go:172-183 | a claim on one queue leaves every job of every other queue as it was |
| Queueing.DrainIsSorted | storage/memory.go:169-187 | draining a queue returns exactly its jobs, each once, oldest first, however ties are broken |
| QueueRuns.RunsAreQueues | process.go:406-435 | in every run of the open regime the enqueued table is what its committed inserts and claims make of the empty queues, each claim taking an oldest job |
| QueueRuns.WaitIsBounded | storage/memory.go:169-187 | the two bounds on a job's wait hold from any moment of any run, of any number of processors by any clocks |
| QueueRuns.NoJobIsOvertaken | storage/memory.go:169-187 | and so does the exact one, where only ties at that moment and later inserts into the job's own queue matter |
| Heartbeats.SimulationStep | storage/sql.go:332-380 | one call on Memory's two maps and on the single SQL table gives the same reply and keeps the two in step |
| Heartbeats.DanglingHeartbeatsAreUnobservable | storage/memory.go:206-245 | through any sequence of calls both stores give the same replies, the same orphan sets and the same reinsertion behaviour, whatever heartbeats arrive for missing rows |
| Heartbeats.MemoryIsTheTables | storage/memory.go:206-245 | the two maps of that simulation are those of the tables that the protocol runs on, and its stale jobs are the rows that the orphan checker selects |
| Like.EscapedMatchesPrefix | storage/sql.go:611-616 | an escaped needle followed by a percent sign matches exactly the strings that start with the needle |
| Like.ContainsIff | storage/memory.go:596-599 | one text contains another exactly when it is that text with something, or nothing, before and behind it |
| Like.SearchIsContains | storage/sql.go:611-616 | for all strings, LIKE with the escaped pattern is substring containment |
| Like.SearchPatternIsValid | storage/sql.go:611-616 | the pattern never contains an invalid escape sequence in the sense of section 8.5 of ISO/IEC 9075-2 |
| Paging.PageFitsIff | storage/memory.go:564-614 | with 64-bit wrap-around a page panics if and only if there is something to list and its end does not fit in an int |
| Paging.NoLimitIsAHundred | storage/memory.go:564-579 | a legacy page without a limit has the next hundred rows |
| Paging.PageIsWindow | storage/memory.go:564-614 | otherwise the page is the window of the list and hasMore says whether the list goes on |
| Paging.LookaheadIsPaginateWithMore | server.go:241-332 | trimming a page of limit+1 rows gives the page and hasMore of paginateWithMore |
| Paging.PagesPartition | storage/memory.go:602-614 | walking the offsets by the limit until hasMore is false concatenates to exactly the list |
| Paging.NormalizeJobQueryLimit | storage/memory.go:581-589 | limits from 1 to 100 are kept, 0 gives 25 and larger ones give 100 |
| JobQuery.MemoryBeforeIsStrictTotal | storage/memory.go:362-478 | the comparators with the ID as tie-break are strict total orders on the rows of a table |
| JobQuery.ListingIsUnique | storage/memory.go:362-478 | the sorted list of matching rows does not depend on map iteration order |
| JobQuery.TextLessIff | storage/memory.go:377-382 | one ID text is before another exactly when it is a proper prefix of it or has the smaller character where they first differ |
| JobMaps.JobMap.Collect | storage/memory.go:374-379 | the loop over the map, in any order, makes new copies of exactly the jobs to keep, each once |
| JobMaps.SortSlice | storage/memory.go:380-385 | sorting pointers keeps exactly the jobs, each once, and leaves none behind one that it is less than, for every strict comparator |
| MemoryStore.Memory.ListJobs | storage/memory.go:362-482 | for every job type and query the reply holds new copies of the requested window of the ordered matching rows with the right hasMore, or the unknown-type error |
| JobQuery.AnswersAgree | storage/memory.go:362-482 | a query has one answer, so any two stores that answer it give the same page and hasMore |
| Pages.QueueIsOldestFirst | storage/memory.go:391-412 | in any reply that answers a query, of two rows of the enqueued jobs the one in front has the earlier EnqueuedAt, or the same and the smaller ID |
| Pages.ScheduleIsLatestFirst | storage/memory.go:369-390 | of scheduled jobs, the later EnqueueAt is in front, and on a tie the smaller ID |
| Pages.ProcessingIsLatestFirst | storage/memory.go:413-434 | of jobs in processing, the later EnqueuedAt, and on a tie the smaller ID |
| Pages.ProcessedIsLatestFirst | storage/memory.go:435-456 | of processed jobs, the later CompletedAt, and on a tie the smaller ID |
| Pages.FailedIsLatestFirst | storage/memory.go:457-478 | of failed jobs, the later NextRetryAt, and on a tie the smaller ID |
| Pages.FirstIsOldest | storage/memory.go:391-412 | the first page of a query that some queued job matches begins with a job that is no younger than any job that matches |
| Pages.PageHoldsOnlyWanted | storage/memory.go:591-600 | every row of a page is stored in the table that was asked for, is of the queue that was named, or for enqueued jobs of the default queue if none was and not all queues were asked for, and has the trimmed text, in any case, in its name or ID |
| Pages.LonePageHoldsAllWanted | storage/sql.go:574-691 | a first page with no more behind it holds exactly those rows |
| Pages.PageSize | storage/memory.go:581-614 | a page has at most the limit that was asked for, 25 rows without one and never more than 100, and is full whenever there are more |
| SqlListing.BuildListJobs | storage/sql.go:574-631 | the SELECT that is built has all placeholders bound and denotes the query: its conditions select the matching rows, its sort keys are the Memory order, its limit is limit+1; it is refused exactly for unknown types |
| SqlListing.CollectJobRows | storage/sql.go:673-691 | the rows are kept in order and trimmed to the limit with hasMore, and any scan or row error is returned |
| SqlListing.SqlAnswers | storage/sql.go:574-691 | any result of the statement, trimmed, answers the query |
| SqlListing.SqlAgreesWithMemory | storage/sql.go:574-691 | the trimmed result is the page and hasMore that Memory.ListJobs returns, for every tables, job type and query |
| StackTrace.CleanStackTrace | process.go:529-562 | the loop computes the header and the frames that are not of the library, or the empty string when none is left |
| StackTrace.LibraryFrames | process.go:564-580 | the function lines that mark a frame to be dropped are exactly those that begin with one of the five prefixes |
| StackTrace.NothingLeftIff | process.go:529-562 | nothing is left of a stack exactly when every second line behind its header is of the library, also when there is only a header |
| StackTrace.UserFramesKeepOrder | process.go:540-555 | filtering two stretches of frames one after the other is filtering them together |
| StackTrace.UserFramesAreExact | process.go:547-555 | every frame that is not of the library is kept as often as it occurs, and no library frame is |
| StackTrace.SplitJoin | process.go:534-561 | splitting joined lines gives the lines back |
| StackTrace.CleaningIsIdempotent | process.go:529-562 | cleaning a cleaned trace changes nothing, on every trace without empty lines |
| StackTrace.IdempotentIff | process.go:529-562 | for every stack whatever, cleaning it twice is cleaning it once if and only if the lines that the first cleaning keeps, read again as function and file lines in turn, have no empty file line, no library function line and no empty last line |
| StackTrace.CleanIff | process.go:529-562 | a header followed by any non-empty list of lines is left as it is by cleaning if and only if those lines are so |
| StackTrace.SecondCleaningDropsALine | process.go:540-555 | for every frame with an empty file line, followed by one whose file line starts like a library frame, the first cleaning keeps that line and the second drops it |
| StackTrace.CleaningTwiceCanDropALine | process.go:547-555 | a concrete stack of that kind |
| JobMaps.ClonePayload | storage/memory.go:552-562 | nil stays nil, and any other payload is copied entry by entry into a new map |
| JobMaps.CloneJob | storage/memory.go:522-550 | the copy has the value of the job and shares no object with anything |
| MemoryStore.MemoryState.Clone | storage/memory.go:47-70 | the copy of the state holds the same five tables and heartbeats, in maps, structs and payloads that are all new |
| MemoryStore.Memory.Copy | storage/memory.go:85 | a transaction starts on such a copy |
| MemoryStore.Memory.Adopt | storage/memory.go:86-91 | a transaction that succeeds swaps its state in |
| MemoryStore.Memory.InsertToScheduled | storage/memory.go:94-102 | the tables afterwards are those of the abstract call, or a duplicate error leaves them unchanged; the store takes in only new objects |
| MemoryStore.Memory.NextFromScheduled | storage/memory.go:104-119 | new copies of exactly the due rows, each once, by EnqueueAt |
| MemoryStore.Memory.ListScheduled | storage/memory.go:128-141 | new copies of one page of all rows, latest EnqueueAt first, ties in any order; None exactly when paginate panics |
| MemoryStore.Memory.InsertToQueue | storage/memory.go:143-151 | as for the schedule, with ErrAlreadyEnqueued |
| MemoryStore.Memory.GetFromQueue | storage/memory.go:153-167 | a new copy of one of the oldest jobs of the queue, or nil exactly when it is empty |
| MemoryStore.Memory.DeleteFromQueue | storage/memory.go:169-187 | removes and returns one of the oldest jobs of the queue, any of them on a tie, and nothing else |
| MemoryStore.Memory.ListEnqueued | storage/memory.go:189-204 | the same for the jobs of one queue, oldest first |
| MemoryStore.Memory.InsertToProcessing | storage/memory.go:206-215 | inserts the row and its first heartbeat together, or neither |
| MemoryStore.Memory.GetByLastHeartbeatBefore | storage/memory.go:224-237 | new copies of exactly the rows whose heartbeat is before the cutoff, ignoring heartbeats without a row |
| MemoryStore.Memory.DeleteFromProcessing | storage/memory.go:239-245 | removes the row and the heartbeat |
| MemoryStore.Memory.ListProcessing | storage/memory.go:247-260 | the same for processing, latest EnqueuedAt first |
| MemoryStore.Memory.ListProcessed | storage/memory.go:272-288 | the same for processed, latest CompletedAt first and then by ID |
| MemoryStore.Memory.NextFromFailed | storage/memory.go:300-315 | new copies of exactly the due failures, each once, by NextRetryAt |
| MemoryStore.Memory.DeleteFromFailed | storage/memory.go:317-322 | removes the record, if there is one, and nothing else |
| MemoryStore.Memory.ListFailed | storage/memory.go:347-360 | the same page for failed, latest NextRetryAt first |
| MemoryStore.Memory.ClaimFailed | storage/memory.go:335-345 | removes and returns the record, or returns nil exactly when there is none |
| MemoryStore.Memory.Count | storage/memory.go:484-504 | the number of rows of the table of that type, or the error for an unknown type |
| Transactions.RunTransact | storage/memory.go:72-92 | on the heap, a transaction over any tree of calls and nested transactions ends as the pure interpreter says; on an error its parent's state is untouched |
| Transactions.RunBody | storage/memory.go:72-92 | so does every body inside, including bodies that swallow the errors of calls and nested transactions |
| Transactions.NestingIsTransparent | storage/memory.go:72-80 | a nested transaction whose error is passed on means the same as its body in its place |
| Transactions.SwallowedIsAllOrNothing | storage/memory.go:72-80 | one whose error is swallowed takes its whole effect or none, and the rest goes on from there |
| Transactions.FlatteningKeepsMeaning | storage/memory.go:72-92 | at any depth, removing every nested transaction whose error is passed on keeps the meaning of the tree |
| Isolation.Outside | storage/memory.go:522-562 | whatever a caller writes to jobs and payload maps it ever passed in or got back, the stored tables stay the same |
| Isolation.InnerSession | storage/memory.go:72-92 | nothing that a caller does inside a transaction reaches the store outside before the commit |
| Isolation.Session | storage/memory.go:94-482 | through any interleaving of calls, caller mutations and nested transactions that commit or fail, each depending on anything before, store and caller share no object, and the tables are exactly what the calls, with the values passed at the time, lead to |
| ProcessorCode.Processor.Enqueue | process.go:391-404 | the code takes one Accept step of the open regime, with its error, reading the clock once for the comparison and again for the stamp |
| ProcessorCode.Processor.Dequeue | process.go:406-435 | the code claims one of the oldest jobs of the queue and records it, or does nothing on an empty queue, or leaves all as it was and reports the error |
| ProcessorCode.MarshalError | process.go:504-513 | the text of a failure is the encoding of an object with the message under "message", with the cleaned stack under "stacktrace" exactly when something is left of it, and with no other key; if it cannot be encoded, a literal frame around the message |
| ProcessorCode.DecodedText | process.go:504-513 | a decoder that undoes the encoder finds exactly those keys with the message and the cleaned stack |
| ProcessorCode.FallbackText | process.go:510-513 | and where nothing can be encoded the text is the message in the literal frame |
| ProcessorCode.Processor.Complete | process.go:437-457 | the code takes one Complete step: the job leaves processing for processed with its EnqueuedAt and StartedAt and that time as CompletedAt, or, exactly when its ID is processed already, the error is reported and nothing changes |
| ProcessorCode.Processor.FailWithStack | process.go:481-527 | the code takes one Fail step: the job leaves processing with its heartbeat, at retry count 19 for good and below it for failed, with the next count n, due n^3 minutes later, and the text of message and cleaned stack; if its ID is in failed already nothing changes |
| ProcessorCode.Processor.Fail | process.go:477-479 | the same without a stack |
| ProcessorCode.Processor.EnqueueScheduled | process.go:636-652 | the code takes one MoveScheduled step from the given snapshot |
| ProcessorCode.Processor.Retry | process.go:582-618 | the code takes one Retry step; a lost claim and an already queued copy both succeed |
| ProcessorCode.Processor.RetryFailedJob | server.go:339-374 | the code takes one WebRetry step and returns the queued job, or reports not found or already enqueued and changes nothing |
| ProcessorCode.Processor.ProcessJob | process.go:334-389 | while the handler runs the job is in processingJobs, afterwards its entry is gone, whoever put it there; a handler that failed or panicked has its job failed with its text, and processed is as before; one that succeeded has its job in processed and failed as before, unless the ID is processed already, when the job is failed with the text of that error |
| ProcessorCode.Processor.EnqueueReadyScheduledJobs | process.go:654-667 | the due jobs, and no others, are worked off in the order of EnqueueAt: the i-th new step moves the snapshot of the i-th of them at the i-th reading of the clock, all steps commit except that the last may be refused, whose error is returned, and without an error all were moved |
| ProcessorCode.Processor.EnqueueReadyFailedJobs | process.go:620-634 | the same for the due failures in the order of NextRetryAt and Retry steps |
| ProcessorCode.Processor.CheckForOrphanedJobs | process.go:205-226 | the same for the rows whose heartbeat is older than 9 s, in any order, and Fail steps with the text of "orphan job" and no stack |
| ProcessorCode.Processor.EmitHeartbeats | process.go:242-250 | the i-th new step is a Heartbeat at the i-th reading of the clock for the i-th entry of processingJobs in some order, each entry once, under the ID that its job then has |
| ProcessorCode.CodeIsSound | process.go:391-667 | whatever sequence of these methods has run, the store is in a sound state of the open regime: no accepted job is lost and no copy is altered |

## Left out

- ProcessorCode.Processor.EmitHeartbeats: writes to Memory, which refuses no heartbeat; a refused write is a StorageFault step of the open regime and breaks assumption 1 of the single processor.
- ProcessorCode.Processor.ProcessJob: runs its calls one after the other, because a method is one goroutine; each call needs only Valid() and a recorded claim, which is never withdrawn, and the SingleProcessor machine lets all other goroutines run between any two of them.
- Transactions.RunTransact: the statements of a body are fixed beforehand, because the tree is its meaning; bodies whose calls depend on what earlier calls returned are those of Isolation.Session, where each step is chosen as it comes.
- Transactions.RunBody: has no reading calls, because they change nothing; Isolation.Session has all of them.
- ScheduleOrder.EarlierEntersFirst: asks for reads sorted by EnqueueAt, because the SQL adapter's nextFromScheduled has no ORDER BY.
- json.Marshal and the texts of errors and panics are parameters; the stack is any text.
- Adapters without FailedJobClaimer, and listLegacyJobs beyond its lookahead: its orders without tie-break leave ties to the adapter.
- The mutex of Memory: each call and each transaction of the unlocked store is one atomic step, and a transaction body uses only the adapter it was given, and not after it has ended.
- SQL drivers, isolation levels, table creation and row scanning: each statement has its intended table semantics and each transaction is atomic.
- LOWER in the database and ToLower in Go are one abstract function, as are the two orders on ID texts; whether a database's LIKE folds case does not matter on lower-cased text.
- Liveness of the loops: the orphan checker stops for good after one refused fail, so no job is promised to leave processing.
- The worker pool, tickers, signals and logging are nondeterministic steps and the timing assumptions above; the kill timeout of a shutdown is a Restart at any moment.
- Payload values are opaque strings in a one-level map; their JSON form, Bind, and payloads nested deeper (which the store copies one level deep) are not modelled.
- UUID generation: submitted IDs are assumed fresh.
- requeue, because nothing calls it.
- HTTP routing, request parsing, the origin checks and the dashboard.
