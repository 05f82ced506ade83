# A verified model of the jewelry image service

The service takes a photograph of a piece of jewelry, finds out what it is, looks up a prompt in a matrix kept in a
Google sheet, submits one paid generation to a provider, polls it and stores the result. Redis holds everything that
matters: a hash per job, an index of recent jobs, counters, locks, a cache. This project models that behaviour in
Dafny and proves what the service promises about money, about its records and about its timed structures.

`dafny verify dfyconfig.toml` verifies the whole project.

## How it is put together

**The pipeline as a protocol.** `Pipeline` describes one job: its Redis record, the worker with its own in-memory
copy and program point, any number of sweepers and rehydrators with stale copies, and the request that created it. An
event is one Redis write, one external call or one crash. `PipelineSafety` proves the money rules over every run,
`PipelineSnapshot` what is sent to the provider, `PipelineAsserts` when a stage's assert can fail, `SpendLedger` the
spend counter over all jobs together; `PipelineRuns` holds runs that show what does happen.

**The worker.** `Worker` is `app/worker/tasks.py` in its own imperative shape, on whole job records, with other writers
at every await: each stage is proved to take exactly the protocol's events, to raise exactly on the answers that make
it raise, and to leave the job with exactly the fields it should. `TaskOutcome` says what those answers lead to and
`TaskMeaning` spells that out, status by status; `TaskWrites` gives each stage's status write with its keyword
arguments; `WorkerRun` is why the others do not matter to it; `PollLoop` is its poll loop and `retry_free`.

**The record.** `JobRecord` holds both encoders and the decoder of a job, and proves when a hash patched field by
field still decodes to the in-memory job. `RecordView` proves that the protocol's writes are those patches, on whole,
partial and lost records. `StageWrites` gives the arguments of every stage's write and proves that none clears a field;
`RecordRun` carries this over every run of the protocol, on whole records instead of views.
`RecentIndex`, `JobStore`, `Rehydration`, `Resolution` and `Generation` are the code around it: the capped index,
`redis_store`, the sweeper, boot rehydration, the resolve route and the generate route.

**The matrix.** `PivotParser` (with `Text`) is the grid parser against a per-cell definition, `PivotMeaning` what its
labels, blocks and complaints come to. `MatrixVersion` is the hashed text, `VersionOrder` when it depends on the order
of the rows, `VersionText` which tables it tells apart; `MatrixCache` is the two-key cache.

**Timed structures and keys.** `TimedLock`, `Counters`, `Budget`, `BudgetBound`, `RateLimit`, `RateLimitSpan`; `Dedupe`
for the two lookup keys, `ApiKeys` for the clients' names in them, `Separators` for cutting such keys apart. Times are
natural numbers, milliseconds for locks, loops and counters, microseconds in job records.

## What is assumed

- At most one worker runs stages for a job at a time, and the resolve route reads, checks and writes in one step.
  Sweepers and rehydrators interleave freely and act on copies as old as one likes.
- The matrix cache results need what the lock result gives while every DEL lands within the TTL: at most one caller
  inside (`MatrixCache.ExclusiveRun`).
- Dates and minutes are written differently when they differ, minutes without a colon (`Budget.DatesExist` and
  `RateLimit.StampsExist`: there are such ways of writing them). SHA-256 is not assumed to be free of collisions.
- The outside world (classifier, provider, storage, Sheets, clock, random choice) appears as parameters whose values
  are arbitrary, so what is proved holds for all of them.

## Where the code and its documentation disagree

The model follows the code.

- `docs/business-rules.md` R1 and `app/worker/retry.py:1-2` speak of 3 attempts; the loop makes 4
  (`PollLoop.RetryFree`).
- `docs/schema.md` says rows with a blank column A continue a block. In the code a row with an unknown label also
  stays in the block, and is reported besides (`PivotParser.InBlock`).
- `app/services/matrix.py:47` says the lock wait outlasts the 30 s TTL; 100 attempts 0.2 s apart do not
  (`TimedLock.SheetsWaiterGetsInMatrixWaiterMayNot`).
- A terminal status is not always final: a worker holding an older copy can write over a swept job
  (`PipelineRuns.SweptJobIsRevived`); `PipelineSafety.FinalIsLeftOnlyByStaleCopy` says exactly when.
- The asserts on `provider_job_id` can fail: a worker polling a job whose record was lost and rehydrated stores it as
  storing without one (`PipelineAsserts.OrphanedPollFails`).
- The lock's DEL does not ask who holds the key, so short guarded calls alone do not exclude
  (`TimedLock.LateDelLetsTwoIn`).
- A rate-limit window lets more than its limit through if an INCR arrives over a minute late, and some 60 seconds can
  then see more than twice the limit (`RateLimit.LateRequestPasses`, `RateLimitSpan.LateBurstPasses`);
  `docs/business-rules.md` R20 promises a plain per-minute limit.
- `app/services/matrix.py:95-104` calls the matrix version a hash of all rows, reproducible from the sheet. Its text has
  one line per variant, so a line break inside a cell can hide a row (`VersionText.LineBreakHidesRow`); without one the
  text shows the table (`VersionText.TextShowsTable`).
- A resolve keeps the error code and `completed_at` of the needs_input stop (`Resolution.ResolvedField`).

## Model

| member | source | states |
|---|---|---|
| Enums.LegalTransitionLowersRank | app/models/enums.py:97-112 | every edge of the status table leads to a status from which strictly fewer transitions remain |
| Enums.LegalHistoryIsBounded | app/models/enums.py:97-112 | a job following the table makes at most as many transitions as the rank of its first status |
| Enums.LegalByTarget | app/models/enums.py:97-112 | the table read the other way, where a job can have come from; it can fail exactly until it is terminal |
| Transitions.GuardPasses | app/core/state.py:36-43 | a transition passes exactly along an edge, with an error code where one is due; otherwise which of the two exceptions |
| Enums.ServiceTextInjective | app/models/enums.py:63-79 | an enumeration's value names one member, so a stored text can be read back |
| PipelineSafety.StatusWriteIsPersist | app/worker/tasks.py:83-126 | each status write any stage makes, from any state a run can reach, passes the transition guard |
| PipelineSafety.TaskStepKeepsCoreInv | app/worker/tasks.py:129-402 | every write, call or crash of the worker keeps the money invariant of the record |
| PipelineSafety.StepKeepsInv | app/worker/tasks.py:344-402 | so does every event of the other writers: routes, stale sweepers, rehydrators, record loss |
| PipelineSafety.AtMostOneSubmit | app/worker/tasks.py:223-262 | in every run provider.submit is called at most once for a job, and no transition is ever refused |
| PipelineSafety.OthersWrite | app/worker/sweeper.py:27-51 | what each other writer makes of the record: a job read as submitting is swept to needs_review with ORPHANED_SUBMIT, any other to failed with PROVIDER_TIMEOUT |
| PipelineSafety.NeverBackBeforeSubmit | app/worker/tasks.py:209-220 | once submitting has been stored, the stored status never again is queued, classifying, resolving or needs_input |
| PipelineSafety.SerialStep | app/core/state.py:36-57 | with fresh copies the stored status moves along one edge of the table per write |
| PipelineSafety.AtMostSevenTransitions | app/models/enums.py:97-112 | with fresh copies a job makes at most seven transitions in its life |
| PipelineSafety.SerialRunIsBounded | app/models/enums.py:88-112 | with fresh copies status changes use up rank, and succeeded, failed and needs_review are never left |
| PipelineSafety.FinalIsLeftOnlyByStaleCopy | app/worker/sweeper.py:41-51 | a stored succeeded, failed or needs_review is left exactly by a loss, by a rehydration written over it, or by a writer whose copy is out of date and stores another status |
| PipelineSafety.FinalIsWrittenOnlyStale | app/worker/tasks.py:97-110 | on such a status the writes of workers and sweepers are exactly those with a copy out of date |
| PipelineRuns.SweptJobIsRevived | app/worker/tasks.py:296-298 | that happens from the start: some run sweeps a job to failed and then stores it as storing |
| PipelineSnapshot.TaskStepKeepsFaithful | app/worker/tasks.py:209-246 | while the record is not lost, snapshot, token and provider id are set once and the worker's copy agrees with them |
| PipelineSnapshot.AssertsHold | app/worker/tasks.py:185-282 | while the record is not lost no stage's assert fails: resolving has a final type, generating and storing have a provider job id |
| PipelineAsserts.AssertsHoldUnlessOrphaned | app/worker/tasks.py:185-322 | with losses too, none fails in a run in which no rehydrated record is written under a polling worker whose job's key has lost the provider's job id |
| PipelineAsserts.AssertCanFailIffOrphaned | app/store/rehydrate.py:63-91 | in every run, a step makes a failing assert possible if and only if it is such a write |
| PipelineAsserts.OrphanedPollFails | app/worker/tasks.py:322-322 | and some run from the start does end in a failing assert |
| PipelineSnapshot.CallsCarryStoredSnapshot | app/worker/tasks.py:228-246 | when the provider is called Redis already holds the token sent, and what is sent is the snapshot stored with submitting |
| PipelineSnapshot.SnapshotIsImmutable | app/worker/tasks.py:209-219 | the snapshot, its matrix version, the token and the provider id never change afterwards, under stale writers too |
| SpendLedger.PaidCallsOfJobCovered | app/api/v1/generate.py:350-354 | a job's paid calls are at most its spend increment, or its request still being between enqueue and increment; a mock has neither, a real job one increment once answered |
| SpendLedger.PaidCallsCovered | app/api/v1/generate.py:271-356 | over any set of jobs and every run, paid calls never exceed increments plus requests in that gap |
| SpendLedger.TaskStepBills | app/providers/factory.py:24-30 | only a job that is not a mock, outside a fake deployment, can make a paid call |
| WorkerRun.WorkerFollowsOwnEvents | app/worker/tasks.py:344-402 | the stages never notice other writers: in every run of the protocol a worker's place and copy follow from its own events alone |
| Worker.PipelineTask.TransitionAndPersist | app/worker/tasks.py:97-110 | a refused transition writes nothing; an accepted one returns the replaced job and writes its fields, on whatever the key holds by then |
| Worker.PipelineTask.Await | app/worker/tasks.py:101-110 | at an await any events of the other writers may happen; the worker's copy, its place and its calls stay |
| Worker.PipelineTask.ClassifyBody | app/worker/tasks.py:129-178 | raises exactly without an answer or a guess; otherwise the guesses are stored, and not jewelry fails, a first guess that is sure enough is taken, any other asks the client |
| Worker.PipelineTask.ResolveAndSubmit | app/worker/tasks.py:181-220 | returns exactly on a gap, an unreachable matrix, or a row with its version and a readable image; only then is a call made, one, and the job keeps the row it was made for |
| Worker.PipelineTask.Submit | app/worker/tasks.py:223-262 | the token is stored first, then one call is made exactly if the image can be read; a raise never escapes, it parks the job for review; a submission is known by its id and provider |
| Worker.PipelineTask.Poll | app/worker/tasks.py:265-314 | the stage follows the provider's first verdict: stored, or failed with the failure counted; without one before the deadline the job is left as it is |
| Worker.PipelineTask.Store | app/worker/tasks.py:317-341 | succeeded with the reference of every asset in order if all are fetched and put, otherwise a storage error |
| Worker.PutAssets | app/worker/tasks.py:329-332 | the references of all assets in index order, unless one of the puts raises |
| Worker.PipelineTask.DispatchJob | app/worker/tasks.py:367-402 | resuming depends on the stored status; from submitting on no call is made, and submitting itself is parked |
| Worker.PipelineTask.RunJobPipeline | app/worker/tasks.py:405-424 | missing and terminal jobs are left alone; any other is taken through the protocol events its status and the answers lead to, raises exactly as they say, makes at most one call, and undisturbed its hash decodes to the job returned |
| TaskMeaning.ReturnsExactly | app/worker/tasks.py:344-402 | which answers let no exception escape, status by status: if and only if |
| TaskMeaning.SendsExactly | app/worker/tasks.py:223-246 | which answers lead to the provider call, status by status: if and only if |
| TaskMeaning.CallIs | app/worker/tasks.py:233-246 | what is sent is the row and the token, and it is paid for if and only if neither job nor deployment is a mock |
| TaskMeaning.RunLeaves | app/worker/tasks.py:367-402 | which stage's outcome a job is left with, by its stored status |
| TaskMeaning.FailuresAre | app/worker/tasks.py:188-262 | the status and error of a gap, an unreachable matrix and a raised submit, and what the job keeps of what was sent |
| TaskMeaning.PollLeaves | app/worker/tasks.py:298-314 | how each verdict leaves the job |
| TaskMeaning.StoreLeaves | app/worker/tasks.py:317-341 | succeeded with every asset's reference in order if and only if all were stored |
| TaskMeaning.ClassifyLeaves | app/worker/tasks.py:140-178 | the decision table: type and source, confidence and candidate list, status and error |
| TaskWrites.DispatchWrites | app/worker/tasks.py:372-395 | the dispatch writes: a client's type is taken as PROVIDED, no type starts classifying, submitting is parked |
| TaskWrites.ClassifyWrites | app/worker/tasks.py:148-178 | the classify stage's three writes with their keyword arguments |
| TaskWrites.SnapshotWrites | app/worker/tasks.py:209-219 | the five snapshot fields are written together with status=submitting |
| TaskWrites.SubmitWrites | app/worker/tasks.py:248-262 | a raise is written as needs_review with ORPHANED_SUBMIT, a submission with its id and provider |
| TaskWrites.PollWrites | app/worker/tasks.py:298-314 | a provider failure is written with one more attempt than before |
| TaskWrites.StoreWrites | app/worker/tasks.py:333-341 | success is written with the references of the assets |
| PollLoop.RetryFree | app/worker/retry.py:17-36 | stops at the first success; raises only after four failures in a row and all three delays |
| PollLoop.Poll | app/worker/tasks.py:287-314 | no round starts at or after the deadline, polls are at most four per five seconds left, and it ends by the first verdict or the deadline |
| JobRecord.RoundTrip | app/models/job.py:66-182 | decoding an encoded job gives the job with its times cut to milliseconds |
| JobRecord.DecodedIsWellFormed | app/models/job.py:113-182 | whatever decodes is complete and already in milliseconds |
| JobRecord.MissingField | app/models/job.py:141-182 | a hash without a field: eight fields have to be there, six have a default, the rest read as None |
| JobRecord.UpdateDecodes | app/store/redis_store.py:31-58 | on any hash that decodes, update_job adds what it is given to the decoded job |
| JobRecord.DeltaUpdateRefines | app/store/redis_store.py:38-58 | the patched hash decodes to the replaced job if and only if no argument is None where the job has a value |
| JobRecord.PersistRefines | app/worker/tasks.py:97-110 | for any keyword arguments, the hash decodes to the in-memory job exactly when none is None where the job has a value; StageWrites.NothingCleared discharges it for every stage |
| StageWrites.NothingCleared | app/worker/tasks.py:148-219 | no stage's arguments clear a field: only the snapshot write passes None, and only to a job without a snapshot |
| StageWrites.StageFieldsAreProtocolDelta | app/worker/tasks.py:148-341 | the keyword arguments of each stage are, in the protocol's view, what its event writes |
| StageWrites.StageWriteRefines | app/worker/tasks.py:83-110 | every status write of every stage is let through, leaves copy and key as the protocol says, and decodes to the copy exactly when the copy was up to date elsewhere |
| RecordRun.StepMirrors | app/store/redis_store.py:22-58 | every event of every writer does to the stored fields what the protocol does to their view |
| RecordRun.HashFollowsProtocol | app/store/redis_store.py:31-58 | in every run, losses included, get_job finds what the protocol stores, and raises exactly on what an update left on a lost key |
| RecordRun.HashIsTheCopy | app/worker/tasks.py:97-110 | after every write of a worker undisturbed since it read the job, the hash decodes to its in-memory job in milliseconds |
| RecordRun.WriteDecodesIffUpToDate | app/worker/tasks.py:97-110 | in every state of every run, lost and partial keys included, after a stage's write it does so if and only if the copy was up to date in every field the call does not write |
| RecordRun.NewJobIsInput | app/api/v1/generate.py:318-335 | the job the generate route creates is the protocol's new job |
| RecordRun.RecoveredIsInput | app/store/rehydrate.py:67-91 | the job rehydration creates is the protocol's rehydrated job |
| JobRecord.TransitionedField | app/core/state.py:44-57 | what transition changes, field by field and with any extra fields, and that it changes nothing else |
| RecordView.UpdateIsHSet | app/store/redis_store.py:38-58 | one update_job call is one write of the protocol, on a complete hash, on a part of one and on a lost key |
| RecordView.PersistIsProtocolDelta | app/worker/tasks.py:101-110 | the arguments of transition-and-persist are the caller's own fields plus the new status and the error so far |
| RecordView.ReapIsProtocolDelta | app/worker/sweeper.py:43-51 | the arguments of the sweeper's write are the protocol's delta |
| RecentIndex.TrimThenInsert | app/store/redis_store.py:26-27 | trimming before an insert loses nothing the trim after it would keep |
| RecentIndex.IndexIsNewest | app/store/redis_store.py:22-28 | after any creates with distinct ids, in any order of timestamps, the index is the 500 greatest ever created |
| RecentIndex.KeptAreNewer | app/store/redis_store.py:26-27 | what was dropped is older than everything kept, and nothing is dropped below 500 |
| JobStore.RedisStore.CreateJob | app/store/redis_store.py:22-28 | the hash merged under its key, the index with the job added and trimmed, no job twice in it |
| JobStore.FetchStored | app/store/redis_store.py:31-35 | what create_job or update_job stored for a job, get_job reads back as that job in milliseconds |
| JobStore.RedisStore.UpdateJob | app/store/redis_store.py:38-58 | the fields that are not None are written, the others and all other jobs stay |
| JobStore.RedisStore.FindExpired | app/store/redis_store.py:87-98 | exactly the indexed live jobs past their deadline, in index order; raises if and only if an indexed hash does not decode |
| JobStore.TruncationHidesNothing | app/models/job.py:8-13 | keeping deadlines in milliseconds never hides an expired job, and finds none more than a millisecond early |
| JobStore.RedisStore.Sweep | app/worker/sweeper.py:15-68 | exactly the expired jobs change: what read submitting reads needs_review with ORPHANED_SUBMIT, the rest failed with PROVIDER_TIMEOUT; afterwards no indexed live job is past its deadline; a raise changed nothing |
| JobStore.ReapedField | app/worker/sweeper.py:27-51 | submitting becomes needs_review with ORPHANED_SUBMIT, the rest failed with PROVIDER_TIMEOUT, and no other field changes |
| JobStore.ReapOne | app/worker/sweeper.py:27-51 | one sweep write is a legal transition and the hash then decodes to its result |
| Rehydration.Rehydrate | app/store/rehydrate.py:36-95 | exactly the first open row of each id missing from Redis creates a record, existing hashes stay, the index follows, and a raise leaves the rows before it done |
| Rehydration.LoggedRowRecovers | app/store/sheets_store.py:43-52 | a job's JobLog row brings back its id, client, service, mock flag, type, hash and creation time, exactly for 48 hours and while no status is written behind it |
| Rehydration.RecoveredHolds | app/store/rehydrate.py:67-91 | the rebuilt record, attribute by attribute |
| Rehydration.CreatedIsParked | app/store/rehydrate.py:67-91 | what it creates reads back as needs_review with ORPHANED_SUBMIT |
| Rehydration.RaisedBefore | app/store/rehydrate.py:54-79 | a row raises only if its own texts, or the hash Redis had for it at the start, do not parse |
| Rehydration.SecondRunCreatesNothing | app/store/rehydrate.py:37-42 | run again on the same log, at the same time or later, it changes nothing |
| Resolution.ResolveJobRoute | app/api/v1/jobs.py:157-185 | only the owner of a needs_input job gets through; it is then resolving with the chosen type and nothing else changes, also when the enqueue after it raises |
| Resolution.ResolvedField | app/api/v1/jobs.py:167-180 | four fields change; error code and completed_at survive |
| Resolution.ResolveRefines | app/api/v1/jobs.py:173-180 | although fewer fields are written, the hash decodes to the returned job |
| Resolution.ResolveIsProtocolDelta | app/api/v1/jobs.py:173-180 | the route's write is the protocol's resolve event |
| Generation.Api.Generate | app/api/v1/generate.py:271-356 | branch by branch: a known idempotency key is answered with its job's id and status, a succeeded job for the same hash and mock flag is reused, the refusals and their order; none of these changes anything. Otherwise one job is created, and counted once if and only if it was enqueued and is not a mock |
| Generation.Api.PostTwice | app/api/v1/generate.py:271-280 | after a call that created a job, even one whose enqueue raised, the next with the same idempotency key answers with that job: one record, one place in the queue, one count |
| Generation.Api.Create | app/api/v1/generate.py:313-356 | record, index, JobLog row, idempotency record and queue each gain exactly the new job; its count goes to the UTC day at that moment and is kept for 48 hours |
| Generation.NewJobHolds | app/api/v1/generate.py:318-335 | the new job, attribute by attribute |
| Generation.NewJobIsOwn | app/api/deps.py:76-89 | stored, only the client that created it owns it, and the reaper takes it exactly after its deadline |
| Text.SplitRebuildsCell | app/services/matrix_parser.py:54-60 | prompt, white space and URL put together again are the stripped cell |
| Text.UrlAtMeans | app/services/matrix_parser.py:18-18 | the URL the regex finds: the Drive prefix, at least one more character, and no white space to the end |
| Text.LowerFolds | app/services/matrix_parser.py:73-76 | lower-casing changes A-Z and the Kelvin sign only |
| Text.StripRemovesOnlySpace | app/services/matrix_parser.py:101-103 | stripping removes white space at the ends only, and leaves none there |
| PivotParser.ReadHeader | app/services/matrix_parser.py:70-82 | exactly the columns whose header is a known type, and the other non-blank headers in order |
| PivotParser.CloseBlock | app/services/matrix_parser.py:91-113 | a closed block adds exactly its own filled cells, by column and then row |
| PivotParser.ParsePivotMatrix | app/services/matrix_parser.py:63-144 | the single pass yields exactly one variant per filled cell of an open block, in order, and reports every unknown label |
| PivotMeaning.CellsOfParse | app/services/matrix_parser.py:91-113 | the cells are the filled cells of typed columns in rows of blocks, by block, then column, then row |
| PivotMeaning.RowsOfBlocks | app/services/matrix_parser.py:115-142 | a row is in a block, and in one only, if and only if a style label comes at or above it, below a category, with no category since |
| PivotMeaning.VariantCanBeAskedFor | app/services/matrix_parser.py:22-42 | every variant is for one jewelry type and one service, those of its column's and its block's labels, so some request asks for it |
| PivotMeaning.HeaderNames | app/services/matrix_parser.py:22-30 | each type has its own header word |
| PivotMeaning.LabelNames | app/services/matrix_parser.py:32-42 | each category and style has its own label |
| PivotMeaning.ReportedHeaders | app/services/matrix_parser.py:70-82 | a header is reported if and only if it is neither blank nor a type |
| PivotMeaning.ReportedLabels | app/services/matrix_parser.py:115-138 | a label is reported with its row number if and only if it is no category, and either a style before any category or no style and not blank |
| PivotParser.ParseIsDetermined | app/services/matrix_parser.py:84-142 | that definition leaves one possible result |
| PivotParser.VariantRebuildsCell | app/services/matrix_parser.py:101-113 | every variant can be traced back to its cell: row number, prompt and URL rebuild it |
| MatrixVersion.VersionIgnoresOrder | app/services/matrix.py:94-112 | the hashed text depends on which variants there are, not on their order, when sort keys are distinct |
| VersionText.LinesAscend | app/services/matrix.py:106-106 | the lines come by type, service and row number, in Python's order of text, and otherwise as they were read |
| VersionText.LineShowsKey | app/services/matrix.py:107-111 | two lines are the same if and only if their keys are, and prompt and URL with the bar between read the same |
| VersionText.LineShowsPrompt | app/services/matrix.py:107-111 | a line never hides that its prompt has been edited |
| VersionText.LineShowsUrl | app/services/matrix.py:107-111 | nor that its URL has; no URL and an empty one look the same |
| VersionText.EditShows | app/services/matrix.py:94-112 | replacing one variant under its key changes the hashed text if and only if it changes its line, for any table |
| VersionText.EditChangesText | app/services/matrix.py:94-112 | so any edit of one prompt or URL changes the text |
| VersionText.TextShowsLines | app/services/matrix.py:94-112 | two tables of one-line cells have one text if and only if, sorted, they read the same line by line |
| VersionText.TextShowsTable | app/services/matrix.py:94-112 | so they hold the same variants, as far as the lines show them |
| VersionText.LineBreakHidesRow | app/services/matrix.py:107-111 | with a line break in a cell the text of two variants can be that of one |
| VersionOrder.OrderFreeIffClashesCommute | app/services/matrix.py:94-112 | for any variants, the hashed text is the same for all their orders if and only if any two with one sort key give the same text either way round |
| VersionOrder.OrderCanMatter | app/services/matrix.py:107-111 | two variants of one key with different lines of one length do change the hashed text when swapped |
| MatrixVersion.ParsedKeysDistinct | app/services/matrix_parser.py:96-113 | parsed keys are distinct if and only if no row fills two columns of one type |
| MatrixVersion.DistinctHeadersDistinctKeys | app/services/matrix_parser.py:72-82 | so they are whenever no two header columns map to one type |
| MatrixCache.StepKeepsCacheInv | app/services/matrix.py:143-169 | every step of any caller inside the lock keeps the cache invariant |
| MatrixCache.WarmDataMatchesVersion | app/services/matrix.py:151-160 | with nobody between the two writes, warm data re-hashes to the version if and only if none has gone there since, or the version found was already the table's |
| MatrixCache.RecordedVersionIsOfTable | app/worker/tasks.py:189-219 | in every run, the version a job records is that of its row's table if and only if the last refresh between its two reads, its own included, stored that version, or there was none and the key already read it |
| MatrixCache.RefreshBetweenReadsMismatches | app/worker/tasks.py:207-219 | a refresh between the two reads does record an old table's row with the new version |
| MatrixCache.OwnRefreshMismatches | app/services/matrix.py:227-234 | so does the refresh that a version read makes itself when it finds neither version nor data |
| MatrixCache.TornWriteMismatches | app/services/matrix.py:159-160 | a refresh that dies between its writes does leave the two apart |
| MatrixCache.ReadsAreCounted | app/services/matrix.py:143-149 | what the next row counts: completed non-forced reads and callers lost with one, since the data last expired |
| MatrixCache.OneReadPerColdPeriod | app/services/matrix.py:143-149 | a cold period sees at most one completed non-forced sheet read, plus one per caller lost holding its read |
| MatrixCache.Cache.RefreshMatrix | app/services/matrix.py:115-172 | warm and not forced reads and writes nothing; a completed read stores the parsed grid with its own version, a failed one changes nothing itself; a forced one after an edit of a prompt or URL answers changed, short of a collision |
| MatrixCache.VersionShowsTable | app/services/matrix.py:94-112 | two parsed tables of one-line cells with one version hold the same variants, short of a collision |
| MatrixCache.Cache.EnsureCachedVariants | app/services/matrix.py:175-192 | a table if there is one or one could be read, otherwise unavailability |
| MatrixCache.Cache.ResolveMatrixRow | app/services/matrix.py:195-224 | None exactly for a gap in a table that was there, otherwise a row of the asked combination |
| MatrixCache.Matching | app/services/matrix.py:210-214 | the variants of one combination, all of them and no others |
| MatrixCache.Cache.CurrentMatrixVersion | app/services/matrix.py:227-234 | the stored version, or the one a first refresh stores; raises exactly when there is neither and no refresh gets through |
| MatrixCache.Cache.RowWithVersion | app/worker/tasks.py:189-219 | in one object, undisturbed, the row and the version recorded with it belong to one table |
| TimedLock.StepKeepsHolder | app/store/sheets_store.py:83-92 | a caller whose DEL has not landed holds the key and is alone, while nobody's DEL is later than the TTL |
| TimedLock.ExcludesExactlyWithinTtl | app/store/sheets_store.py:83-92 | the lock excludes in all runs, exceptions and dead holders included, if and only if every DEL lands before its caller's key expires |
| TimedLock.CallBoundNeverExcludes | app/store/sheets_store.py:87-90 | bounding the guarded calls alone is not enough, however short they are |
| TimedLock.LateDelLetsTwoIn | app/store/sheets_store.py:89-90 | a DEL that lands late takes the next holder's key away and lets a third caller in |
| TimedLock.GetsInExactlyWhenAttemptsSpanTtl | app/store/sheets_store.py:83-92 | a sole waiter behind a dead holder always gets in if and only if its attempts span the TTL |
| TimedLock.SheetsWaiterGetsInMatrixWaiterMayNot | app/store/sheets_store.py:12-15 | it does with the Sheets constants, and may not with the matrix constants |
| TimedLock.WithLock | app/store/sheets_store.py:83-92 | gives up only if every attempt found the key held; otherwise returns or re-raises the call's own result with the key deleted |
| Counters.CounterStore.Increment | app/services/budget.py:40-41 | INCR returns one more than the live count and keeps the time to live |
| Budget.CheckBudget | app/services/budget.py:32-35 | allowed if and only if the count of the day the check began is below the cap |
| Budget.IncrementSpend | app/services/budget.py:38-41 | both operations go to the day the call began, and no other day changes |
| Budget.StepKeepsBound | app/services/budget.py:24-41 | a day's increments plus the requests that may still add to it stay below cap plus overlap, across midnight too |
| Budget.SpendIsBounded | app/services/budget.py:24-41 | with k requests between check and increment a day never exceeds cap + k - 1, and never the cap when serialised |
| Budget.CounterIsTrueToday | app/services/budget.py:13-41 | the 48 h time to live resets no counter during its own day |
| Budget.DatesExist | app/services/budget.py:20-21 | what is asked of the date's text can be met |
| BudgetBound.BoundIsReached | app/api/v1/generate.py:309-354 | for every cap and k some run spends cap + k - 1, so the bound is exact |
| RateLimit.WindowsDiffer | app/api/deps.py:47-48 | two windows share a counter only if client, bucket and minute agree, whatever the client is called |
| RateLimit.CheckRateLimit | app/api/deps.py:39-52 | a request passes if and only if its own window's count was below the limit, and no other window changes |
| RateLimit.ExactlyTheLimitPasses | app/api/deps.py:39-52 | of n requests in a window exactly min(n, limit) pass, in every run whose INCRs come within a minute of their keys |
| RateLimit.ExactIffPrompt | app/api/deps.py:15-52 | that holds in all runs if and only if nothing passes at all or no INCR comes more than a minute after its key; one that does finds the counter expired |
| RateLimit.AtMostTwiceTheLimitInAMinute | app/api/deps.py:39-52 | while INCRs come within a minute of their keys, a client gets at most twice the limit through in any 60 seconds |
| RateLimitSpan.TwiceAtMostIffPrompt | app/api/deps.py:15-52 | in all runs any 60 seconds see at most twice the limit, if and only if no INCR comes more than a minute after its key (with a limit of one, a millisecond more) |
| RateLimitSpan.LateBurstPasses | app/api/deps.py:47-49 | for every limit, a run with a later INCR in which 60 seconds see more |
| RateLimit.StampsExist | app/api/deps.py:47-47 | what is asked of the minute's text can be met, for any limits |
| Dedupe.PreimageInjective | app/services/dedupe.py:12-21 | equal hash inputs mean exactly the same image, service and requested type, even with separators in the image; the mock flag is left out |
| Dedupe.DeduplicatedMeansSameWork | app/api/v1/generate.py:286-295 | in every run a deduplicated answer names a stored succeeded job that is not a mock, made for the same request, unless the two inputs are a collision of the hash |
| Dedupe.RecordedIsFound | app/services/dedupe.py:36-61 | once a succeeded real job is recorded, the next request for the same image, service and type gets it, unless it is a mock |
| Dedupe.OnlySuccessIsRecorded | app/services/dedupe.py:58-59 | what has not succeeded, or is a mock, is never recorded |
| Dedupe.StepKeepsKeys | app/services/dedupe.py:36-61 | a dedupe key only ever names a job that is not a mock and has that hash |
| Dedupe.SameNameSameKey | app/services/dedupe.py:28-29 | one client's different idempotency keys never share a record |
| Dedupe.ClientsShareNoKeyUnlessPrefixed | app/services/dedupe.py:28-29 | two names' idempotency records could coincide if and only if one name continued the other after a colon |
| Dedupe.ClientsShareNoRecord | app/services/dedupe.py:28-66 | since no client's name has a colon, two clients never share an idempotency record, and one client's keys are apart, across reloads of API_KEYS |
| ApiKeys.ParseApiKeys | app/config.py:11-24 | each key digest leads to the name of the last entry with it; the first entry that is not name:key raises, and so does an empty list |
| ApiKeys.ParsesExactly | app/config.py:11-24 | it succeeds if and only if there is an entry and every entry has both a name and a key |
| ApiKeys.ClientNamesHaveNoColon | app/config.py:18-21 | a name that authenticates is never empty and has no colon, whatever API_KEYS says |
| ApiKeys.KeyAuthenticates | app/core/security.py:26-31 | the key of a name:key entry authenticates as its name unless a later entry has its digest |

## Left out

- PipelineSafety.AtMostOneSubmit: does not cover two workers on one job, or two resolve requests at once; both are excluded by the step relation.
- SpendLedger.PaidCallsCovered: a request whose process died between enqueue and increment stays counted as being in that gap.
- PipelineSnapshot.CallsCarryStoredSnapshot: speaks of runs in which Redis has not lost the record; after a loss only AtMostOneSubmit is claimed.
- PipelineSafety.AtMostSevenTransitions: holds for serialised writers only, since stale copies do write over final statuses.
- MatrixCache.WarmDataMatchesVersion: takes the exclusion of TimedLock as given instead of running both state machines together.
- MatrixCache.Cache.RowWithVersion: makes both reads on one undisturbed object; the interleavings are RecordedVersionIsOfTable and RefreshBetweenReadsMismatches.
- JobStore.RedisStore.Sweep: covers jobs still in jobs:recent; one evicted by 500 newer jobs is never swept.
- RecentIndex.TrimThenInsert: compares scores as microseconds; Redis keeps them as doubles of seconds, which tell those apart for dates of this century.
- MatrixCache.Cache.RefreshMatrix: other callers appear as at most one whole refresh during the wait, and the cache does not expire inside; the state machine beside it has both.
- WorkerRun.WorkerFollowsOwnEvents: one worker at a time; a second one started beside it is excluded by the step relation.
- Worker.PipelineTask.TransitionAndPersist: record_dedupe is the Dedupe model's event, and the Sheets row update is not modelled.
- Worker.PipelineTask.Store: fetch_assets appears as its outcome.
- JobRecord.PersistRefines: leaves its condition open; StageWrites and RecordRun discharge it for every write.
- RecordView.PersistIsProtocolDelta: leaves the stage's own fields open; StageWrites.StageFieldsAreProtocolDelta fills them in.
- Generation.Api.Generate: form parsing, image checks, the storage call and the JobLog append appear as their outcomes; the answer's poll_url and created_at are left out.
- Generation.Api.PostTwice: both calls by themselves; two at once may each create a job, since the key is recorded after the job.
- Rehydration.LoggedRowRecovers: isoformat and fromisoformat are taken to agree.
- VersionText.TextShowsTable: prompt and URL are told apart only as one text with a bar between; for tables with a line break in a cell only EditShows speaks.
- The 48 h expiry of job hashes appears as the loss of the record, which may happen at any time.
- Sheets rows: the row of a finished job, the row index and the failure counter. "Exactly two writes per job" does not hold for jobs that pass through needs_input.
- list_recent and GET responses, which only filter and copy fields.
- Dedupe.ClientsShareNoRecord: names that reach Settings as a ready-made dict, not as text, are not parsed and not covered.
- Requests without a key, admin keys, ownership beyond the resolve route, health, logging, alerts, configuration, scripts and the web pages.
- Providers, storage adapters and the classifier's own parsing: any outcome, or an exception.
- JSON, float and integer texts of the hash are taken to read back as written; dates are integers.
- Lower-casing beyond ASCII is modelled for the one letter (the Kelvin sign) that can turn a non-ASCII header into a known label.
- arq's own job timeout and retries: a crash may happen anywhere and a worker may start again from any stored status.
