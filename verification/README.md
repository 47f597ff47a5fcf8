# A verified model of the analysis service's hard core

This project models, in Dafny 4.11, the parts of the quant-analysis repository whose correctness
depends on interleavings, crashes, loops over mutable data or exact arithmetic, and proves what
those parts promise. `dafny verify dfyconfig.toml` checks everything.

| file | component |
|---|---|
| `Common.dfy` | what several components share |
| `Admission.dfy` | parse-bound admission: one-shot nonce, job, idempotency row and outbox row in one transaction, statement by statement under read committed |
| `Dispatch.dfy` | outbox dispatcher: leases, slot wait, runs, settlement, process crash, the restart sweep that fails closed, clock |
| `Service.dfy` | admission and dispatch composed over the same job and outbox rows |
| `IdempotencyFence.dfy` | the in-process retry fence |
| `FrontDoor.dfy` | the fence composed with admission, over process restarts and lost connections |
| `KisFetch.dfy` | request windows and the bisecting fetch |
| `KisScheduler.dfy` | the bounded parallel scheduler, for every completion order |
| `KisResume.dfy` | flush, completed-window cursors, crash anywhere, resume with skip-existing |
| `KisIngest.dfy` | scheduler runs as histories of the resume model, and what the request cap counts |
| `KisStatus.dfy` | what the status that the parallel ingestion reports says about the windows it took |
| `Segments.dfy`, `Halts.dfy`, `Adjust.dfy`, `Preprocess.dfy` | price preprocessing: listing segments, short-halt filling, back-adjustment, and their composition |
| `EventLog.dfy` | bounded event buffer, SSE reader, and a client that reconnects with `Last-Event-ID` (section 9.2.4 of the WHATWG HTML Living Standard) |
| `Lookahead.dfy` | the differential look-ahead test |
| `GraphDriver.dfy` | the analysis graph as an edge table with declared channels and as the straight-line fallback |
| `AuditSession.dfy` | the fail-open audit session |
| `CapacityGate.dfy` | the analysis slot gate, over thread interleavings |

Concurrent protocols are small-step machines: a state, an `Enabled` predicate, an `Apply` or `Step`
function and runs that are arbitrary sequences of enabled actions. Objects that mutate their fields
are classes whose methods are proved against functions on values; loops are methods with
invariants. Prices are `real` and a missing cell (NaN) is `None`. Dates are integers, identifiers
and digests are opaque values that are only compared.

## Findings

Where a promise of the code or of its comments does not hold as stated, the code is modelled as it
is, an input shows the failure, and the exact condition is proved.

- **The lease is shorter than the slot wait.** A claim lasts 300 s, a claimed job may stay queued for
  1860 s waiting for a capacity slot, and status writes do not check the previous status. Without a
  hypothesis a row can be claimed twice, a job run twice, and a row be delivered while its job is
  running again (`Dispatch.LeaseBreachRunsJobTwice`, for every breach; `SlotWaitOutlivesLease` reaches
  one). Exclusivity of the next step is equivalent to the lease hypothesis
  (`Dispatch.ExclusiveIffLeased`). That no queued job is stranded needs no hypothesis.
- **A backlog of more than 500 active jobs locks the service out at its next restart.** The sweep
  refuses to begin above its limit, it is the only thing that settles jobs while the service is down,
  and recoverable queued jobs count against the limit although it would leave them alone. A queued job
  can still be completed if and only if the service is up, its sweep has begun, or at most 500 jobs are
  active (`Dispatch.CompletableIffSweepFits`); 501 admissions and a crash reach the lock-out
  (`BacklogLocksOut`), after which no existing job or row changes (`LockedOutForGood`). A service that
  does come up is clean (`RestartIsClean`).
- **A retry with a fresh parse token can fail on the unique key** instead of receiving the winner's job
  (`Admission.KeyConflictReachable`). A request whose key is already bound to its own spec and to a job
  gets that job in every continuation, or is lost, if and only if it is not about to insert and its
  consuming statement can no longer succeed (`Admission.WinnersJobIff`). In the whole service the retry
  fence keeps such requests apart, as long as no transaction loses its request while its COMMIT is on
  the wire (`FrontDoor.NoKeyConflict`). A restart does that (`RestartAllowsConflict`), and so does a
  lost connection, because the request then frees its fence entry (`LostConnectionAllowsConflict`).
  Step by step, a step makes such a death possible if and only if it severs a COMMIT
  (`FatalIffSevers`); in every reachable state a death is possible without a further cut if and only if
  a COMMIT is adrift or has bound the key of a request that is about to insert it (`CanDieIff`).
- **A database error during the durable lookup leaves its key "in progress" until the process
  restarts**, because the request ends without completing or discarding its fence entry. A key in
  progress is shut out for the rest of the process if and only if the request that began it has ended
  that way (`IdempotencyFence.ShutOutIffAbandoned`; `AbandonmentShutsOut` is the run).
- **Skip-existing skips windows in which the reference table has no rows**, even if the provider has
  some. For a slicing and a reference table, every successful skip-existing history against every
  provider ends with all rows if and only if the reference table has rows in every window
  (`KisResume.SkipLosslessIff`).
- **The request cap does not count failed requests.** Its count equals the provider calls made if and
  only if every window's first call was answered (`KisIngest.CountExactIff`); when every fetch fails, a
  run under any positive cap goes through all jobs with a count of zero (`FailuresAreFree`,
  `CapExceeded`). What does bound the calls is the cap plus the number of failed windows
  (`CappedCallBound`).
- **A parallel run stopped by the request cap reports success**, because the status looks at failed
  windows only. Over everything providers can answer and every order of completion, reported success
  means that every window was taken if and only if there is no cap, or all windows fit into the cap and
  into the futures put in flight at once, or the days of all windows but the last do not use the cap up
  (`KisStatus.SuccessMeansAllIff`; `StoppedEarly` is the run in every other case). This is the branch
  for two or more workers; with one worker the script reports a partial success at the cap.
- **A client whose `Last-Event-ID` is beyond the log can miss retained events.** They are skipped until
  the log has passed that id. A client that connects misses no retained event published afterwards if
  and only if the log has reached its id, or the buffer holds one event at most
  (`EventLog.NeverMissesIff`; `Overtaken` is the run for every such client).
- **A negative event cap counts more events as dropped than were published.** The buffer refines its
  log if and only if the cap is not negative or nothing was published
  (`EventLog.RefinesIffCapNonnegative`).
- **The two graph drivers differ in two ways**: the fallback replaces the state by the Supervisor's
  result, and only the compiled graph refuses updates with undeclared keys. From a state of the
  graph's type they agree if and only if the Supervisor is not reached, raises or returns every key it
  was given, and no update along the fallback's run leaves the declared channels
  (`GraphDriver.DriversAgreeIff`; `StrayKeySplitsDrivers` shows a world that meets the first half only).
- **Adjusted ratios stay in the band exactly when the raw ratio is positive**
  (`Adjust.BandIffPositive`); for positive closes that is always.
- **A halt can be filled with a price of another segment**, because the row before its run is taken by
  position in the frame. In every frame, however its segments interleave, no price crosses a segment
  boundary if and only if the row just before every filled run belongs to the run's own segment
  (`Halts.FilledWithinSegmentsIff`); with ordered segments, if and only if no segment but the first
  opens with a halt within the limit (`GroupedWithinSegmentsIff`). A ticker that comes back after a
  delisting shows its old price (`FillCrossesSegments`), and one with overlapping listing windows the
  price of its other listing (`InterleavedFillCrosses`).
- **A fill across a segment boundary fabricates a split.** Inside its own segment a filled bar is never
  taken for one; it is only when it is the first of a run filled across a boundary
  (`Preprocess.HaltsMakeNoEvents`), which with ordered segments never happens
  (`GroupedHaltsMakeNoEvents`). The real bar after a halt is taken for a split if and only if its close
  jumps from the price the halt shows (`EventAfterHaltIff`); that is the last tradable close of its own
  segment when nothing was filled across (`HaltShowsLastTradable`), and otherwise a ticker that never
  moved is adjusted (`CrossingFabricatesSplit`, `InterleavingFabricatesSplit`).

## Model

| member | source | states |
|---|---|---|
| `Admission.StepKeepsInv` | ai/ai_graph/job_repository_postgres.py:247-379 | every statement, commit and abort of any interleaved admission keeps the one-to-one ledger of consumed nonces, jobs, idempotency and outbox rows and the row and key locks |
| `Admission.RunInv` | ai/ai_graph/job_repository_postgres.py:247-379 | the invariant holds in every state of every run |
| `Admission.StoredJobPresent` | ai/ai_graph/job_repository_postgres.py:270-271 | an idempotency row always names a stored job, so the "stored job missing" branches are unreachable |
| `Admission.StepSimulates` | ai/ai_graph/job_repository_postgres.py:227-379 | the tables change only by a token registration or by a commit, and a commit is exactly one atomic admission; other statements and aborts change nothing |
| `Admission.Linearizable` | ai/ai_graph/job_repository_postgres.py:247-409 | in every interleaving each reply that is not a database error or a loss equals the atomic admission's (or lookup's) reply at one moment of the transaction, and a creation takes effect at its commit |
| `Admission.RepliesMean` | ai/ai_graph/job_repository_postgres.py:247-379 | column by column: "created" was answered at a commit that found key, job and outbox ids free and, under the nonce, an unconsumed, unexpired token for the user, version and spec, and wrote exactly its rows; "parse token unavailable" only when no such token stood there; "existing", "key reused" and "not found" by what the key's row said at that moment |
| `Admission.MissedAt` | ai/ai_graph/job_repository_postgres.py:277-295 | a transaction that re-reads the winner missed its nonce at an earlier consume statement |
| `Admission.Bijection` | ai/ai_graph/job_repository_postgres.py:277-358 | in every reachable state consumed nonces, jobs, idempotency rows and outbox rows are in bijection and equally many |
| `Admission.RunGrows` | ai/ai_graph/job_repository_postgres.py:317-358 | committed rows are never removed or changed, apart from a token becoming consumed |
| `Admission.CreatedOnce` | ai/ai_graph/job_repository_postgres.py:277-379 | no nonce and no (user, key) is answered "created" twice |
| `Admission.CreatedHash` | ai/ai_graph/job_repository_postgres.py:332-340 | a creation binds its key to the spec hash that was asked for and to its own job, for good |
| `Admission.ForeignHashNeverServed` | ai/ai_graph/job_repository_postgres.py:263-265 | once a key is bound to a hash, a transaction with another hash is never answered with a job |
| `Admission.LoserGetsWinnersJob` | ai/ai_graph/job_repository_postgres.py:291-314 | a request that loses the race for its nonce and key is answered with the winner's job in every continuation, unless it is lost |
| `Admission.ConflictOnlyAcrossNonces` | ai/ai_graph/job_repository_postgres.py:332-340 | a unique-key failure happens only when the key's row was written for another nonce |
| `Admission.WinnersJobIff` | ai/ai_graph/job_repository_postgres.py:277-340 | an unfinished admission whose key is bound to its own hash and a job is answered with that job, or lost, in every continuation if and only if it is not about to insert and its consume can no longer succeed |
| `Admission.NoDeadlock` | ai/ai_graph/job_repository_postgres.py:277-358 | while a transaction is unfinished, it or one further along can take its next statement or commit |
| `Admission.AllCanFinish` | ai/ai_graph/job_repository_postgres.py:247-379 | from every reachable state statements and commits alone, without any abort, finish every open transaction |
| `Admission.KeyConflictReachable` | ai/ai_graph/job_repository_postgres.py:332-340 | a run in which an identical request with another nonce fails on the unique key |
| `Dispatch.StepKeepsInv` | ai/ai_graph/api.py:786-900 | every dispatcher, clock, crash and reaper step keeps one row per job, no delivered row of a queued job, and claim stamps in the past |
| `Dispatch.LeavesQueueForGood` | ai/ai_graph/job_repository_postgres.py:411-446 | no step returns a job to the queue |
| `Dispatch.CompletedByItsRun` | ai/ai_graph/jobs.py:841-884 | over every run a job is completed only by a worker of that very job whose analysis succeeded, or whose slot wait ran out on a demonstration |
| `Dispatch.FailedByItsRunOrGivenUp` | ai/ai_graph/api.py:845-900 | over every run a job is failed only by a worker of that job, by its dispatcher or by the restart sweep |
| `Dispatch.EndingShows` | ai/ai_graph/jobs.py:841-884 | each of these endings leaves the job completed or failed accordingly |
| `Dispatch.InterruptedFails` | ai/ai_graph/jobs.py:1795-1885 | a job that was running when the process died is failed as soon as the service is up again, and for good |
| `Dispatch.DeliveredForGood` | ai/ai_graph/job_repository_postgres.py:448-470 | a delivered row stays delivered |
| `Dispatch.ClaimHolds` | ai/ai_graph/job_repository_postgres.py:419-440 | while its job is queued a claimed row can be claimed again exactly when more than 300 seconds have passed |
| `Dispatch.UnsettledOnlyByFault` | ai/ai_graph/api.py:814-900 | a row is given back only after an error while settling, or for a job that does not exist |
| `Dispatch.EscapeSettles` | ai/ai_graph/api.py:839-872 | a run that escapes can be settled as failed and acknowledged |
| `Dispatch.FaultReleases` | ai/ai_graph/api.py:864-870 | from every point at which a guarded settlement can raise, the row can end pending again |
| `Dispatch.FinishedWasStarted` | ai/ai_graph/jobs.py:841-884 | an analysis reports a result only for a job that was started |
| `Dispatch.QueuedIsRecoverable` | ai/ai_graph/job_repository_postgres.py:472-487 | a queued job has exactly one row, pending or claimed, is spared by the reaper, and is claimable once a lease has passed |
| `Dispatch.NoQueuedJobStranded` | ai/ai_graph/api.py:805-900 | recoverability in every reachable state, crashes, duplicate claims and faults included, without a lease hypothesis |
| `Dispatch.RestartIsClean` | ai/ai_graph/jobs.py:1795-1885 | in every run, once the service has come up there is no worker, no running job, and every unsettled job is queued with a row that is claimable after a lease |
| `Dispatch.RunningSinceRestart` | ai/ai_graph/jobs.py:1803-1812 | in every continuation of a restart, a job that is running or executed was started after the restart |
| `Dispatch.SweepAndRestart` | ai/ai_graph/api.py:1218-1226 | a sweep that has begun can settle every orphan, sparing the recoverable queue, and the service comes up |
| `Dispatch.LockedOutForGood` | ai/ai_graph/job_repository_postgres.py:694-697 | above the limit a service that is down stays down, and no existing job or row ever changes; a COMMIT still on the wire only adds to them |
| `Dispatch.CompletableIffSweepFits` | ai/ai_graph/job_repository_postgres.py:671-698 | a queued job can still be completed if and only if the service is up, its sweep has begun, or no more jobs are active than one sweep accepts |
| `Dispatch.BacklogLocksOut` | ai/ai_graph/job_repository_postgres.py:671-698 | 501 admissions and a crash reach a state that no restart leaves |
| `Dispatch.QueuedCanComplete` | ai/ai_graph/api.py:805-900 | from every reachable state in which the service is up or its sweep has begun or can begin, whoever holds the row, a queued job has a continuation in which it is completed and acknowledged |
| `Dispatch.NeverClaimedAgain` | ai/ai_graph/api.py:795-801 | once a job has left the queue its row is never claimed again, even if the acknowledgement was lost |
| `Dispatch.StepKeepsLeaseInv` | ai/ai_graph/job_repository_postgres.py:419-470 | under the lease hypothesis every step keeps claims exclusive, worker and job in agreement, delivered rows terminal, and starts at most one |
| `Dispatch.LeasedRunIsSafe` | ai/ai_graph/api.py:805-900 | over every run under the lease hypothesis: no two live dispatchers hold a row, a delivered row's job is terminal, no job is started twice |
| `Dispatch.OutcomeIsFinal` | ai/ai_graph/jobs.py:841-884 | over every run under the lease hypothesis a completed or failed job keeps that status |
| `Dispatch.TimedOutNeverStarted` | ai/ai_graph/jobs.py:862-885 | under the lease hypothesis a job whose slot wait ran out was never started |
| `Dispatch.ExclusiveIffLeased` | ai/ai_graph/job_repository_postgres.py:419-440 | every next step keeps claims exclusive if and only if no live lease has run out on a queued job |
| `Dispatch.LeaseBreachRunsJobTwice` | ai/ai_graph/jobs.py:841-884 | from every breach a continuation runs the job twice and leaves its row delivered while it runs |
| `Dispatch.SlotWaitOutlivesLease` | ai/ai_graph/analysis_capacity.py:39-44 | a breach is reachable within the configured slot wait |
| `Service.StepKeepsInv` | ai/ai_graph/job_repository_postgres.py:317-358 | composed steps keep both invariants and the agreement of the two views of jobs and outbox rows |
| `Service.CommitUnobstructed` | ai/ai_graph/job_repository_postgres.py:317-379 | whether the service is up or down, the ids a commit publishes are new to the dispatch side as well, so a commit is enabled exactly when admission enables it |
| `Service.AcceptedNeverLost` | ai/ai_graph/api.py:786-900 | after a "created" reply, in every later state the job is stored, exactly one row names it, and while queued it stays recoverable |
| `Service.OneRunPerKey` | ai/ai_graph/job_repository_postgres.py:254-440 | over every run there is at most one job per user and key, and under the lease hypothesis it is started at most once |
| `KisFetch.IterWindows` | DE/scripts/ingest_kis_adjusted_ohlcv.py:726-731 | windows tile the date range in order, all of the requested length but a possibly shorter last one |
| `KisFetch.TilingCovers` | DE/scripts/ingest_kis_adjusted_ohlcv.py:726-731 | in a tiling every day of the range lies in exactly one window and every other day in none |
| `KisFetch.Midpoint` | DE/scripts/ingest_kis_adjusted_ohlcv.py:858-862 | the halves are non-empty and differ by at most one day |
| `KisFetch.FetchPartitions` | DE/scripts/ingest_kis_adjusted_ohlcv.py:849-865 | a successful fetch is accounted for by answered requests whose windows partition the window in date order; rows are theirs in that order, the count is their number, and failures are one per split |
| `KisFetch.FetchCallBound` | DE/scripts/ingest_kis_adjusted_ohlcv.py:849-865 | for every failure pattern at most twice the days minus one requests |
| `KisFetch.FetchGivesUpOnOneDay` | DE/scripts/ingest_kis_adjusted_ohlcv.py:857-859 | the fetch raises only when a single-day request fails, and it is its last request |
| `KisFetch.FetchTransparent` | DE/scripts/ingest_kis_adjusted_ohlcv.py:849-865 | against a faithful provider bisecting is invisible: the rows are those of the whole window in date order |
| `KisScheduler.ParallelFetch.SubmitNext` | DE/scripts/ingest_kis_adjusted_ohlcv.py:885-893 | takes exactly the next job if there is room in the cap and the futures and a job is left, and otherwise changes nothing; every law of the scheduler is kept |
| `KisScheduler.ParallelFetch.Book` | DE/scripts/ingest_kis_adjusted_ohlcv.py:901-914 | a successful result adds its rows and requests, and its window unless it is empty; a failed one only joins the failed windows; nothing is lost, duplicated or reordered |
| `KisScheduler.ParallelFetch.CopyRows` | DE/scripts/ingest_kis_adjusted_ohlcv.py:1013-1016 | all pending rows move to the table, before any cursor for them, and every collected result is stored |
| `KisScheduler.ParallelFetch.UpsertCursors` | DE/scripts/ingest_kis_adjusted_ohlcv.py:1017-1019 | pending windows become cursors only when the rows of every collected result are stored |
| `KisScheduler.ParallelFetch.Flush` | DE/scripts/ingest_kis_adjusted_ohlcv.py:1001-1019 | everything pending moves to the table and the cursors, in that order |
| `KisScheduler.ParallelFetch.Collect` | DE/scripts/ingest_kis_adjusted_ohlcv.py:899-916 | booking and threshold flush keep the scheduler's invariant, and the result joins the collected ones |
| `KisScheduler.ParallelFetch.Run` | DE/scripts/ingest_kis_adjusted_ohlcv.py:868-919 | the loop plays exactly the run that what `wait` hands back determines; whatever that is, at the end nothing is in flight, the rows collected are those of the jobs taken as a multiset, every taken job is exactly one of failed, empty or completed, and without a cap every job was taken |
| `KisScheduler.ParallelFetch.Ingest` | DE/scripts/ingest_kis_adjusted_ohlcv.py:499-521 | after the final flush the table holds exactly the rows of the successful jobs, exactly the completed windows have a cursor, and success is reported if and only if no window failed |
| `KisScheduler.Settled` | DE/scripts/ingest_kis_adjusted_ohlcv.py:897-919 | what a finished run has collected does not depend on the completion order, and fates partition the jobs taken |
| `KisScheduler.OrderIrrelevant` | DE/scripts/ingest_kis_adjusted_ohlcv.py:897-905 | permuting the collected results permutes the collected rows |
| `KisScheduler.FatesPartition` | DE/scripts/ingest_kis_adjusted_ohlcv.py:901-914 | failed, empty and completed jobs together are the collected jobs |
| `KisScheduler.SuccessesPay` | DE/scripts/ingest_kis_adjusted_ohlcv.py:885-887 | each successful job costs at least one counted request, which is why the cap bounds successful and in-flight jobs |
| `KisScheduler.SettleSound` | DE/scripts/ingest_kis_adjusted_ohlcv.py:899-914 | settling any future keeps tracking, balance, durability, capacity and provenance |
| `KisScheduler.FlushSound` | DE/scripts/ingest_kis_adjusted_ohlcv.py:1001-1019 | both transactions of a flush keep them |
| `KisScheduler.PlaySteady` | DE/scripts/ingest_kis_adjusted_ohlcv.py:868-919 | every run, whatever `wait` hands back turn by turn, keeps the scheduler's laws, and after each turn there is no room left |
| `KisScheduler.RanEnds` | DE/scripts/ingest_kis_adjusted_ohlcv.py:895-919 | every whole run ends with exactly the jobs taken collected |
| `KisScheduler.BacklogBounded` | DE/scripts/ingest_kis_adjusted_ohlcv.py:915-916 | between two turns fewer rows are pending than make up a flush, or none |
| `KisScheduler.RunsOn` | DE/scripts/ingest_kis_adjusted_ohlcv.py:895-919 | however far a run has come, it can be brought to its end |
| `KisStatus.SuccessMeansAllIff` | DE/scripts/ingest_kis_adjusted_ohlcv.py:885-893 | for non-empty windows, over all provider answers and orders of completion, success means every window was taken if and only if there is no cap, or all windows fit into the cap and the futures put in flight at once, or the days of all windows but the last do not use the cap up |
| `KisStatus.StoppedEarly` | DE/scripts/ingest_kis_adjusted_ohlcv.py:518-519 | in every other case, a run of bisecting fetches in which nothing fails and the cap keeps a window from being taken |
| `KisStatus.FetchWithinDays` | DE/scripts/ingest_kis_adjusted_ohlcv.py:849-865 | a successful fetch counts at least one request and at most one per day of its window |
| `KisIngest.NextResumable` | DE/scripts/ingest_kis_adjusted_ohlcv.py:745-760 | with skip-existing the window yielded has no cursor, at least one expected row and fewer stored rows than expected, and every window passed over fails one of these; without it the next window is yielded; there is exactly one place to stop |
| `KisIngest.SettleStep` | DE/scripts/ingest_kis_adjusted_ohlcv.py:899-914 | a settled future is a `Collect` or `Lose` step of the resume model |
| `KisIngest.CopyStep` | DE/scripts/ingest_kis_adjusted_ohlcv.py:1013-1016 | the first transaction of a flush is its `CopyRows` step |
| `KisIngest.RecordStep` | DE/scripts/ingest_kis_adjusted_ohlcv.py:1017-1019 | the second one is its `WriteCursors` step |
| `KisIngest.TraceIsHistory` | DE/scripts/ingest_kis_adjusted_ohlcv.py:868-919 | whatever history left the database behind, a scheduler run up to any of its moves continues that history by one process |
| `KisIngest.CrashAnywhere` | DE/scripts/ingest_kis_adjusted_ohlcv.py:868-919 | a crash of the scheduler after any move leaves no cursor without its rows and no window stored in part |
| `KisIngest.IngestCompletes` | DE/scripts/ingest_kis_adjusted_ohlcv.py:499-521 | a scheduler run without failed windows, on any database earlier runs and crashes left, ends with all the provider's rows, or with exactly the expected windows' rows if all runs skip what looks complete |
| `KisIngest.ProviderToTable` | DE/scripts/ingest_kis_adjusted_ohlcv.py:499-521 | the same from faithful providers: however requests fail, split and complete, an ingestion that gives no window up ends with those rows |
| `KisIngest.CountExactIff` | DE/scripts/ingest_kis_adjusted_ohlcv.py:885-905 | the count that the cap limits never exceeds the provider calls made, and equals them if and only if every window's first call was answered |
| `KisIngest.CappedCallBound` | DE/scripts/ingest_kis_adjusted_ohlcv.py:868-919 | a capped run makes at most twice the window's days minus one calls per unit of cap and per failed window |
| `KisIngest.FailuresAreFree` | DE/scripts/ingest_kis_adjusted_ohlcv.py:885-887 | under any positive cap, when every fetch fails the run takes all jobs, with at least one call each and a count of zero |
| `KisIngest.CapExceeded` | DE/scripts/ingest_kis_adjusted_ohlcv.py:885-887 | for every positive cap and every number of calls there is such a whole run |
| `KisResume.StepKeepsInv` | DE/scripts/ingest_kis_adjusted_ohlcv.py:745-804 | every step of any sequence of runs, crashes included, keeps windows stored whole and every taken job accounted for |
| `KisResume.CursorMeansStored` | DE/scripts/ingest_kis_adjusted_ohlcv.py:1001-1019 | at every instant a completed-window cursor means all rows of its window are stored, and no window is stored in part |
| `KisResume.CompleteIsStored` | DE/scripts/ingest_kis_adjusted_ohlcv.py:767-804 | a window that passes the completion test with rows expected has all its rows stored |
| `KisResume.TakenIffMissing` | DE/scripts/ingest_kis_adjusted_ohlcv.py:745-804 | in a skip-existing history a window is put in flight if and only if no cursor records it, rows are expected and fewer are stored |
| `KisResume.OnlyTakeFetches` | DE/scripts/ingest_kis_adjusted_ohlcv.py:745-760 | nothing but the iterator puts windows in flight |
| `KisResume.CursorsExactly` | DE/scripts/ingest_kis_adjusted_ohlcv.py:901-905 | a cursor is only ever written for a window with provider rows, and a successful run that does not skip leaves one for each of them |
| `KisResume.OnlyFlushesWrite` | DE/scripts/ingest_kis_adjusted_ohlcv.py:1001-1019 | the tables change only in the two transactions of a flush; a crash writes nothing and a run that ends holds nothing back |
| `KisResume.ResumeEqualsUninterrupted` | DE/scripts/ingest_kis_adjusted_ohlcv.py:745-760 | whatever crashes and lost requests came before, a successful skip-existing history ends with the very table of one process left alone on an empty database, which the lemma exhibits |
| `KisResume.Uninterrupted` | DE/scripts/ingest_kis_adjusted_ohlcv.py:745-760 | after any history, a process that is started and left alone finishes without a failure |
| `KisResume.SuccessStoresAll` | DE/scripts/ingest_kis_adjusted_ohlcv.py:745-760 | a successful run that may not skip, or has nothing unexpected to miss, ends with all the provider's rows |
| `KisResume.SkipLosslessIff` | DE/scripts/ingest_kis_adjusted_ohlcv.py:796-801 | for a slicing and a reference table, every successful skip-existing history against every provider ends with all rows if and only if the reference table has rows in every window |
| `KisResume.UnexpectedIsLost` | DE/scripts/ingest_kis_adjusted_ohlcv.py:796-801 | provider rows in a window where none are expected are lost by a run that nothing interrupts |
| `KisResume.IterFetchJobs` | DE/scripts/ingest_kis_adjusted_ohlcv.py:734-742 | every day of every ticker belongs to exactly one job |
| `KisResume.CollectIsFetch` | DE/scripts/ingest_kis_adjusted_ohlcv.py:849-865 | what a run collects for a job is what the bisecting fetch returns for its window |
| `Segments.InferSegments` | DE/scripts/compute_technical_indicators_pipeline.py:1143-1157 | the loop computes the segments specified observation by observation |
| `Segments.SpansOrdered` | DE/scripts/compute_technical_indicators_pipeline.py:1143-1157 | inferred segments are non-empty, disjoint and in date order |
| `Segments.SpansEndObserved` | DE/scripts/compute_technical_indicators_pipeline.py:1147-1156 | they begin and end on observed dates |
| `Segments.ObservedInExactlyOne` | DE/scripts/compute_technical_indicators_pipeline.py:1150-1156 | every observed date lies in exactly one segment, the one numbered by the relistings before it |
| `Segments.NeighboursShareIffClose` | DE/scripts/compute_technical_indicators_pipeline.py:1151-1154 | neighbouring observations share a segment if and only if their calendar distance is at most the relisting gap |
| `Segments.ClipListings` | DE/scripts/compute_technical_indicators_pipeline.py:1130-1139 | the loop computes the clipped, non-empty windows in order |
| `Segments.ClippingIsExact` | DE/scripts/compute_technical_indicators_pipeline.py:1132-1139 | a date is in some segment if and only if it is in the period and in some listing window |
| `Segments.ClippingKeepsOrder` | DE/scripts/compute_technical_indicators_pipeline.py:1132-1139 | successive listing windows give ordered, disjoint segments |
| `Segments.ListingSegments` | DE/scripts/compute_technical_indicators_pipeline.py:1129-1157 | listing windows when any survives clipping, inference otherwise |
| `Segments.NumberSegments` | DE/scripts/compute_technical_indicators_pipeline.py:1088-1092 | each date gets the number of the last segment covering it, or none |
| `Segments.NumbersGrow` | DE/scripts/compute_technical_indicators_pipeline.py:1089-1094 | with ordered segments numbers never decrease along the calendar |
| `Halts.FillShortHalts` | DE/scripts/compute_technical_indicators_pipeline.py:1160-1188 | for every numbering of the rows the in-place loops compute the segment-by-segment filling, and with ordered segments the filled frame |
| `Halts.SegmentwiseFill` | DE/scripts/compute_technical_indicators_pipeline.py:1169-1187 | in every frame a short run repeats the row just before it as it stands when its segment is visited, and every other row is unchanged |
| `Halts.TradedUntouched` | DE/scripts/compute_technical_indicators_pipeline.py:1164-1166 | a bar with positive volume on a day not marked untradable is never changed |
| `Halts.HaltByFields` | DE/scripts/compute_technical_indicators_pipeline.py:1160-1188 | days without volume or marked untradable, after a traded day of the segment and up to the next one, repeat all its prices and its volume and are marked as filled if they are within the limit, and are left alone otherwise |
| `Halts.GroupedFill` | DE/scripts/compute_technical_indicators_pipeline.py:1169-1187 | with ordered segments the segment-by-segment filling is the filled frame |
| `Halts.FillSegment` | DE/scripts/compute_technical_indicators_pipeline.py:1169-1187 | one segment's scan has exactly the effect of one pass |
| `Halts.FillIsThePromise` | DE/scripts/compute_technical_indicators_pipeline.py:1160-1188 | a frame is the filled frame if and only if tradable rows are unchanged, runs within the limit and not at frame start repeat the row just before them, and other runs are unchanged |
| `Halts.FilledFromLastTradable` | DE/scripts/compute_technical_indicators_pipeline.py:1175-1180 | unless its run opens a segment, a filled row repeats the last tradable bar |
| `Halts.OwnSegmentIff` | DE/scripts/compute_technical_indicators_pipeline.py:1175-1180 | in every frame a filled row's prices come from its own segment if and only if the row just before its run belongs to that segment or had itself been filled from it; one step of where a price comes from, whose form checkable on the raw frame is `FilledWithinSegmentsIff` |
| `Halts.GroupedOwnSegmentIff` | DE/scripts/compute_technical_indicators_pipeline.py:1175-1180 | with ordered segments, if and only if its run does not open the segment |
| `Halts.FilledWithinSegmentsIff` | DE/scripts/compute_technical_indicators_pipeline.py:1175-1180 | in every frame no price crosses a segment boundary if and only if the row just before every filled run belongs to the run's own segment |
| `Halts.GroupedWithinSegmentsIff` | DE/scripts/compute_technical_indicators_pipeline.py:1175-1180 | with ordered segments, if and only if no segment but the first opens with a halt within the limit |
| `Halts.InterleavedFillCrosses` | DE/scripts/compute_technical_indicators_pipeline.py:1175-1180 | a frame with interleaved segments in which a halt that does not open its segment shows the other segment's price |
| `Halts.FillCrossesSegments` | DE/scripts/compute_technical_indicators_pipeline.py:1175-1180 | a two-segment frame in which the fill crosses the boundary |
| `Halts.FillIdempotent` | DE/scripts/compute_technical_indicators_pipeline.py:1160-1188 | filling twice is filling once |
| `Adjust.ContinuityFactors` | DE/scripts/compute_technical_indicators_pipeline.py:1191-1213 | for every numbering of the rows the nested loops give each row the product of all later event ratios of its segment, and the events segment by segment |
| `Adjust.EventsExact` | DE/scripts/compute_technical_indicators_pipeline.py:1197-1212 | the recorded events are exactly the events of the segments visited, ordered by segment and row |
| `Adjust.EventIff` | DE/scripts/compute_technical_indicators_pipeline.py:1198-1203 | consecutive closes p and c make an event if and only if p is not 0, c/p is positive and c/p is not strictly between 0.55 and 1.8; its ratio is c/p |
| `Adjust.OrdinaryMovesUntouched` | DE/scripts/compute_technical_indicators_pipeline.py:1198-1218 | a frame whose consecutive ratios all lie strictly between 0.55 and 1.8 has no event and is its own adjusted frame |
| `Adjust.GroupedEventsByDate` | DE/scripts/compute_technical_indicators_pipeline.py:1197-1212 | with ordered segments they are in date order |
| `Adjust.ApplyContinuity` | DE/scripts/compute_technical_indicators_pipeline.py:1191-1218 | the adjusted columns for every row, and the events |
| `Adjust.FactorTelescopes` | DE/scripts/compute_technical_indicators_pipeline.py:1201-1205 | the factor of a close is the next close's factor times that close's own event ratio |
| `Adjust.LatestUnadjusted` | DE/scripts/compute_technical_indicators_pipeline.py:1204-1205 | rows with no later event in their segment keep their raw prices |
| `Adjust.EqualAcrossEvent` | DE/scripts/compute_technical_indicators_pipeline.py:1201-1216 | adjusted closes are equal across an event |
| `Adjust.AdjustedMove` | DE/scripts/compute_technical_indicators_pipeline.py:1197-1216 | the adjusted ratio of consecutive closes is 1 across an event and the raw ratio elsewhere |
| `Adjust.BandIffPositive` | DE/scripts/compute_technical_indicators_pipeline.py:1200-1203 | an adjusted ratio lies strictly between 0.55 and 1.8 if and only if the raw ratio is positive |
| `Adjust.BandByCloses` | DE/scripts/compute_technical_indicators_pipeline.py:1200-1216 | adjusted consecutive closes are strictly within 0.55 and 1.8 of each other if and only if the raw ones are not 0 and have one sign |
| `Adjust.PositiveClosesInBand` | DE/scripts/compute_technical_indicators_pipeline.py:1200-1216 | for positive closes every adjusted ratio lies strictly between 0.55 and 1.8 |
| `Adjust.NoEventAfter` | DE/scripts/compute_technical_indicators_pipeline.py:1191-1218 | a second pass finds no event, whatever the closes |
| `Adjust.AdjustIdempotent` | DE/scripts/compute_technical_indicators_pipeline.py:1191-1218 | adjusting twice is adjusting once |
| `Adjust.TurnoverConserved` | DE/scripts/compute_technical_indicators_pipeline.py:1215-1217 | price times volume is conserved bar by bar for open, high, low and close |
| `Preprocess.FrameGrouped` | DE/scripts/compute_technical_indicators_pipeline.py:1088-1094 | with successive listing windows, or none, the frame handed to filling and adjusting has non-decreasing segment numbers |
| `Preprocess.FrameHoldsQuotes` | DE/scripts/compute_technical_indicators_pipeline.py:1088-1094 | the frame holds the quotes of its dates unchanged, in calendar order |
| `Preprocess.InferenceKeepsObservations` | DE/scripts/compute_technical_indicators_pipeline.py:1088-1094 | without a usable listing window no observed bar is dropped |
| `Preprocess.InferenceSplitsAtGaps` | DE/scripts/compute_technical_indicators_pipeline.py:1088-1094 | neighbouring observed bars get one segment number if and only if they are at most the gap apart |
| `Preprocess.ListingsKeepListedDates` | DE/scripts/compute_technical_indicators_pipeline.py:1088-1094 | with usable windows the frame keeps exactly the listed dates of the period |
| `Preprocess.HaltsMakeNoEvents` | DE/scripts/compute_technical_indicators_pipeline.py:1101-1109 | in every frame a filled bar is taken for a split only when it is the first of its run and the run is filled across a segment boundary |
| `Preprocess.GroupedHaltsMakeNoEvents` | DE/scripts/compute_technical_indicators_pipeline.py:1101-1109 | with ordered segments a filled bar is never taken for a split |
| `Preprocess.EventAfterHaltIff` | DE/scripts/compute_technical_indicators_pipeline.py:1101-1109 | in every frame the real bar after a filled halt that shows a close is taken for a split if and only if its close jumps from that close |
| `Preprocess.HaltShowsLastTradable` | DE/scripts/compute_technical_indicators_pipeline.py:1160-1188 | a halt not filled across a boundary shows the last tradable bar of its own segment |
| `Preprocess.CrossingFabricatesSplit` | DE/scripts/compute_technical_indicators_pipeline.py:1175-1212 | an ordered frame in which filling makes an event of a bar that was none |
| `Preprocess.InterleavingFabricatesSplit` | DE/scripts/compute_technical_indicators_pipeline.py:1175-1212 | an interleaved frame in which the filled bar itself becomes one |
| `Preprocess.PreprocessTicker` | DE/scripts/compute_technical_indicators_pipeline.py:1077-1126 | for all listing windows the pipeline yields the segment-by-segment filling and, when asked, its adjustment and events; with successive windows the filled frame |
| `EventLog.JobEventBuffer.Publish` | ai/ai_graph/job_events.py:32-39 | one job's buffer is appended and trimmed, every other job's is untouched |
| `EventLog.JobEventBuffer.Close` | ai/ai_graph/job_events.py:41-45 | one job is marked closed, nothing else changes |
| `EventLog.JobEventBuffer.ReadSince` | ai/ai_graph/job_events.py:47-61 | returns the events after the cursor, the new cursor and whether the job is closed |
| `EventLog.JobEventBuffer.Forget` | ai/ai_graph/job_events.py:63-67 | one job's buffer becomes new, every other job's is untouched |
| `EventLog.KeepsTheLast` | ai/ai_graph/job_events.py:32-39 | the buffer holds exactly the last events up to the cap and counts the rest as dropped |
| `EventLog.RefinesIffCapNonnegative` | ai/ai_graph/job_events.py:36-39 | the buffer is the log's suffix after the dropped count if and only if the cap is not negative or nothing was published |
| `EventLog.SinceReadsLog` | ai/ai_graph/job_events.py:55-61 | a read returns exactly the retained events after the cursor and moves the cursor to the end of the log |
| `EventLog.EventSource.Turn` | ai/ai_graph/api.py:1861-1880 | the frames of one polling turn, the cursor and the idle count |
| `EventLog.StepKeepsInv` | ai/ai_graph/api.py:1854-1880 | publishing, closing, polling, receiving and reconnecting keep ordinals, order and completeness |
| `EventLog.ClientSeesLog` | ai/ai_graph/api.py:1840-1880 | over every run with reconnects a client sees each event at most once, in order, under its 1-based ordinal, and between its first id and the last one it saw misses only trimmed ones |
| `EventLog.NeverMissesIff` | ai/ai_graph/job_events.py:47-61 | for every non-negative cap, in every continuation the client misses no retained event published after it connected if and only if the log has reached its id or the buffer holds one event at most |
| `EventLog.Overtaken` | ai/ai_graph/job_events.py:55-61 | for every client ahead of the log, a run in which a retained event is never sent to it |
| `EventLog.DoneMeansComplete` | ai/ai_graph/api.py:1868-1870 | "done" is sent if and only if the job is closed and nothing retained is unread, and then nothing but trimmed events was missed after the client's first id |
| `EventLog.OversizedCursorCorrects` | ai/ai_graph/job_events.py:55-61 | a cursor beyond the log is corrected by one read that delivers nothing |
| `EventLog.KeepaliveEverySixtyPolls` | ai/ai_graph/api.py:1871-1880 | an open stream with nothing to read sends one keepalive every sixty polls and nothing else |
| `EventLog.DataRestartsCount` | ai/ai_graph/api.py:1879-1880 | a poll that finds something to read starts the keepalive count anew |
| `EventLog.QuietAfterReconnect` | ai/ai_graph/api.py:1854-1880 | after a reconnect to a quiet stream exactly the sixtieth poll sends the first keepalive |
| `EventLog.CloseEndsStream` | ai/ai_graph/job_events.py:41-45 | closing the job brings "done" within two polls, with everything received that was not trimmed |
| `EventLog.NoPollAfterDone` | ai/ai_graph/api.py:1868-1870 | after "done" the stream polls no more unless the client reconnects |
| `Lookahead.FindingsExact` | ai/ai_graph/lookahead.py:87-111 | exactly one finding for each row on which the runs differ, in row order, and none besides |
| `Lookahead.SortMeans` | ai/ai_graph/lookahead.py:114-131 | the history is the rows by date, then ticker |
| `Lookahead.EvidenceByRows` | ai/ai_graph/lookahead.py:132-150 | covered rows are those on or before the cutoff, signals their decisions other than 0, silent rows the others |
| `Lookahead.FindingsByRows` | ai/ai_graph/lookahead.py:87-111 | one finding for each covered row decided differently on the truncated history, with its date, its ticker, the baseline's decision and the truncated one by name |
| `Lookahead.UptoIsPrefix` | ai/ai_graph/lookahead.py:126-129 | on a sorted history the date filter keeps exactly a prefix |
| `Lookahead.RefusedIffNothingKept` | ai/ai_graph/lookahead.py:126-128 | the test raises if and only if every row is after the cutoff |
| `Lookahead.EvidenceAccounts` | ai/ai_graph/lookahead.py:132-150 | covered rows are signalling or silent rows, and findings are at most covered rows |
| `Lookahead.EvidenceDates` | ai/ai_graph/lookahead.py:145-145 | the covered dates are the distinct dates of rows on or before the cutoff |
| `Lookahead.SilentMeansHold` | ai/ai_graph/lookahead.py:132-147 | no covered signal if and only if every covered decision is to hold |
| `Lookahead.NeverAccused` | ai/ai_graph/lookahead.py:114-150 | a rule that does not anticipate has no findings on any history at any cutoff |
| `Lookahead.CleanMeansCausalDecisions` | ai/ai_graph/lookahead.py:114-150 | no findings at a row's date means its decision is the one computed from the history truncated there |
| `Lookahead.CleanEverywhereIffDayByDay` | ai/ai_graph/lookahead.py:114-150 | no findings at any cutoff if and only if the history and all its truncations are decided day by day |
| `Lookahead.ObservedCutoffsSuffice` | ai/ai_graph/lookahead.py:126-131 | checking the dates that occur is checking every cutoff |
| `Lookahead.CleanIffNonAnticipating` | ai/ai_graph/lookahead.py:1-18 | the test is clean on every history at every cutoff if and only if the rule does not anticipate |
| `GraphDriver.Invoke` | ai/ai_graph/graph.py:173-189 | the straight-line fallback follows exactly the edge table after its first node |
| `GraphDriver.RunsAreRouted` | ai/ai_graph/graph.py:173-247 | in both drivers, on the recorded calls: Supervisor first, each call hands its state on, Data is followed by Research and Research by BacktestCode exactly when the next input's status is "ready" and otherwise by Envelope, the classifier by Envelope exactly for "C0_NO_STRATEGY_INTENT", and a run is ended only by Envelope or by what its error names |
| `GraphDriver.WhatRuns` | ai/ai_graph/graph.py:173-189 | a run that does not raise calls BacktestCode, Backtest, Signal, Risk Manager and Report, each once and in this order, exactly when there is a strategy and both states were ready, and otherwise stops with Envelope where it should |
| `GraphDriver.StagesOfWholeRun` | ai/ai_graph/progress.py:31-45 | the stages reported by a run through all nodes |
| `GraphDriver.DriversAgreeIff` | ai/ai_graph/graph.py:173-247 | from a state of the graph's type both drivers make the same node calls on the same states and end alike if and only if the Supervisor is not reached, raises or returns every key it was given, and no update along the fallback's run leaves the declared channels |
| `GraphDriver.GraphStopsAtUndeclared` | ai/ai_graph/state.py:45-48 | from such a state and with a Supervisor that keeps its keys the graph makes the fallback's calls up to and including the first undeclared update, and raises there |
| `GraphDriver.StrayKeySplitsDrivers` | ai/ai_graph/state.py:45-48 | a world with a Supervisor that keeps its keys in which one stray key makes the drivers differ |
| `GraphDriver.DriversAgree` | ai/ai_graph/graph.py:476-484 | with the repository's Supervisor and nodes that update declared channels only the drivers agree |
| `GraphDriver.BothWellRun` | ai/ai_graph/graph.py:224-247 | in both drivers nodes run in graph order, none twice, only past their checks, and a run that does not raise ends with Envelope |
| `GraphDriver.EnvelopeLastOnce` | ai/ai_graph/graph.py:224-247 | Envelope runs last and exactly once on a run that does not raise |
| `GraphDriver.StagesMonotone` | ai/ai_graph/progress.py:31-45 | reported stages never move backwards |
| `GraphDriver.StoppedForGood` | ai/ai_graph/graph.py:378-385 | after a check answers "stop" no further node runs |
| `AuditSession.PostgresAuditSession.Transaction` | ai/ai_graph/audit_postgres.py:597-613 | one attempt's whole effect on the session, and success exactly when the session is live and nothing goes wrong |
| `AuditSession.PostgresAuditSession.HandleFailure` | ai/ai_graph/audit_postgres.py:615-623 | the first failure marks, rolls back, reports and closes; later ones do nothing |
| `AuditSession.PostgresAuditSession.Close` | ai/ai_graph/audit_postgres.py:563-567 | closes once |
| `AuditSession.PostgresAuditSession.RecordFinalization` | ai/ai_graph/audit_postgres.py:333-366 | a last transaction, then closed whatever happened |
| `AuditSession.EffectsExactly` | ai/ai_graph/audit_postgres.py:597-623 | for every call sequence and fault pattern the outside sees exactly the effects of the calls up to the first failure, finalization or close |
| `AuditSession.RecordingCases` | ai/ai_graph/audit_postgres.py:597-623 | one recording case by case: denied, stopped at a statement, commit raising with or without having been applied, or committed whole |
| `AuditSession.SessionSafe` | ai/ai_graph/audit_postgres.py:563-623 | every commit directly follows a positive guard check and is one call's whole statement list, at most one failure is reported, and the connection is closed at most once, last |
| `CapacityGate.StepKeepsInv` | ai/ai_graph/analysis_capacity.py:97-111 | every thread step keeps holders plus free slots at the maximum and the waiting count exact |
| `CapacityGate.SlotsConserved` | ai/ai_graph/analysis_capacity.py:85-111 | over every interleaving with timeouts and raising bodies: slots are conserved, the waiting count is the queue, no release overflows |
| `CapacityGate.TimedOutNeverHolds` | ai/ai_graph/analysis_capacity.py:100-107 | a thread that timed out neither holds nor releases a slot until it asks again |
| `CapacityGate.WaitsOnlyForHolders` | ai/ai_graph/analysis_capacity.py:100-101 | a thread is kept waiting only while all slots are held |
| `CapacityGate.GivesUpAndAsksAgain` | ai/ai_graph/analysis_capacity.py:97-111 | a thread that gave up leaves the gate as it was and can ask again |
| `IdempotencyFence.CoreJobIdempotencyRegistry.Begin` | ai/ai_graph/api.py:321-331 | the answer and the registry after a begin |
| `IdempotencyFence.CoreJobIdempotencyRegistry.Complete` | ai/ai_graph/api.py:333-336 | only an open entry with the same hash is completed |
| `IdempotencyFence.CoreJobIdempotencyRegistry.Discard` | ai/ai_graph/api.py:338-341 | only an open entry with the same hash is removed |
| `IdempotencyFence.AtMostOneInProgress` | ai/ai_graph/api.py:321-341 | in every interleaving at most one request per user and key is in progress |
| `IdempotencyFence.AnsweredWhileOpen` | ai/ai_graph/api.py:321-331 | while a request is in progress on a key every other begin is answered "pending" or "conflict", by the hash alone |
| `IdempotencyFence.CompletedForGood` | ai/ai_graph/api.py:321-336 | a completed key keeps hash and job for good, and every later begin is answered with that job or a conflict |
| `IdempotencyFence.OwnerCompletes` | ai/ai_graph/api.py:333-336 | the owner's completion always takes effect |
| `IdempotencyFence.ShutOutIffAbandoned` | ai/ai_graph/api.py:1660-1686 | a key in progress is answered "pending" or "conflict" for the rest of the process if and only if the request that began it ended without completing or discarding |
| `IdempotencyFence.AbandonmentShutsOut` | ai/ai_graph/api.py:1660-1686 | beginning and being abandoned is a run that shuts the key out |
| `IdempotencyFence.ForeignDiscardHarmsIff` | ai/ai_graph/api.py:338-341 | from every reachable state a discard by a caller that owns nothing lets a second request in beside the owner if and only if it names the owner's slot and hash |
| `IdempotencyFence.ForeignCompletionIff` | ai/ai_graph/api.py:333-336 | a completion by a caller that owns nothing takes effect if and only if it names the owner's slot and hash |
| `FrontDoor.StepKeepsInv` | ai/ai_graph/api.py:1519-1772 | every step of the composed front door, cuts and restarts included, keeps both invariants and each waiting request on one transaction of its own key |
| `FrontDoor.RunInv` | ai/ai_graph/api.py:1519-1772 | so they hold in every state of every run |
| `FrontDoor.OneCallPerKey` | ai/ai_graph/api.py:1519-1538 | two transactions that requests wait for never want the same key |
| `FrontDoor.RequestProtocol` | ai/ai_graph/api.py:1655-1772 | a request looks up once, asks for admission only after a lookup that found nothing, asks nothing after a lost connection, and completes its entry exactly with the job it was answered with |
| `FrontDoor.FenceAnswersTrue` | ai/ai_graph/api.py:1519-1548 | over every run, when the fence answers with a job the tables bind the key to the caller's spec and to that job, and hold it |
| `FrontDoor.NoKeyConflict` | ai/ai_graph/api.py:1519-1772 | over every run in which no COMMIT on the wire loses its request, by a restart or a lost connection, no request that passed the fence dies on the unique key |
| `FrontDoor.CanDieIff` | ai/ai_graph/api.py:1519-1772 | in every reachable state a request can still die on its key without a further COMMIT being severed if and only if a COMMIT is adrift, or has bound the key of a request about to insert it |
| `FrontDoor.FatalIffSevers` | ai/ai_graph/api.py:1758-1765 | while nothing is wrong yet, a step makes such a death possible if and only if it takes the request away from a transaction whose COMMIT is on the wire |
| `FrontDoor.LostConnectionAllowsConflict` | ai/ai_graph/api.py:1758-1765 | without any restart, a connection lost in the middle of a commit lets the retry die on the key |
| `FrontDoor.RestartAllowsConflict` | ai/ai_graph/api.py:1655-1660 | a restart in the middle of a commit lets the retry die on it |

## Left out

- SQL text, drivers, CSV copying, HTTP clients and thread pools: only their effect on tables, rows and interleavings is modelled.
- Admission: validation of exploration specs against the active policy, and the two research-appendix rows written with such jobs; the row lock on an existing idempotency row (its absence only adds interleavings); the job document itself. `now()` is the transaction's start, as in PostgreSQL.
- Dispatch: jobs that are not parse-bound, the research-appendix outbox, the limit of 32 messages per dispatch task; a dispatch task is its current claim. Provider work, progress details and cancellation inside a run are abstract.
- Dispatch: process incarnations and rows that this build cannot decode; a sweep whose store fails ends with the service still down.
- KIS: the sequential branch for a single worker, token retries inside one request, request logs, pauses between requests, the conversion of payloads to rows; tickers are distinct and cursor keys are the jobs themselves. In the resume model a stop at the request cap is one of the ways in which a run ends early.
- KisResume.ResumeEqualsUninterrupted: the provider answers the same rows for the same window throughout, and the reference table does not change between runs.
- KisScheduler.ParallelFetch.Run: at least one worker, and successful fetches report at least one request, as the fetch does.
- Preprocess.PreprocessTicker: sorting, de-duplication and number parsing of the raw frame, the calendar query and diagnostics.
- Floating-point rounding of prices and ratios, and infinite prices; technical indicators.
- EventLog: JSON encoding and ownership checks; `Forget` is modelled but not part of the reader's runs, because nothing in the service calls it.
- Lookahead: how a rule computes its decisions; the texts of limitations. Dates and tickers are numbers ordered as the strings are.
- GraphDriver: the library that runs the compiled graph, of which only its refusal of updates with undeclared keys is modelled; initial states with keys outside the graph's state type; what the nodes do, and the audit records written around them.
- AuditSession: the insert that opens a session and the contents of statements.
- CapacityGate: fairness and the length of the timeout.
- Keyword tables, strategy profiles, clarification texts and report rendering: data and wording, without a law that relates one part to another. Quota and authentication: each is one check in front of a request.
