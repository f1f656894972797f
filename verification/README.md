# Verified model of the sales import pipeline

Medical sales files are uploaded, queued, parsed, staged, checked against master data and published as immutable facts. Many workers do this against one PostgreSQL database; any of them may stall or crash. This project models that pipeline, and the reporting calendar that facts refer to, and proves what it keeps.

`dafny verify dfyconfig.toml` checks everything.

## How the model is built

**Tables and transactions.** `Tables` holds the rows, check constraints and audit-trigger predicates. `QueueSpec` gives every queue and intake transaction as a function from one database value to the next, or to an error that leaves it unchanged. `QueueService.ImportQueue` is the same code as it runs, with fields that methods update in place, each method proved to leave exactly the database its transaction specifies; `QueueMeaning` says what the short ones mean for their callers. Attempts are identified by their unique pair of job and number.

**The queue invariant.** `QueueInvariant.Inv` says what holds in every reachable database, job by job; `Evolves` says what one step may do to it (tokens, published jobs, failed uploads, issues, facts, and the audit triggers on jobs, attempts and rows). `QueueSafety` proves that every operation keeps both, for every clock reading, forward or backward. `QueueFrames` and `QueueTermination` add what each operation leaves alone and how it spends attempts.

**Parsing and staging.** `SalesHeaders`, `SalesContract` and `SalesFile` are the row contract over records already split by the CSV reader; `CellMeaning` and `RowMeaning` say what cells and rows mean by laws that do not mention the parsing. `IssueCollection` is the bounded collector, `Staging` the batched staging loop; both are proved against definitions that know nothing of batches.

**Publication.** `ReferenceValidation` defines what one row needs from the whole database and proves the chunked code with its filtered tables equal to it. `Publication.Planned` is the plan of a file, row by row; `Publication.Publisher` carries it out in two chunked passes. `PublishTransaction` applies a plan to the database in one step; `PublicationService` does the same on the tables, and `FileToFacts` joins reading, staging and publication into the successful path of a claim.

**Concurrency.** In `ImportSystem` a publication is several steps: take the source lock, take a snapshot, lock the job row, commit or fail, release. Any other transaction, a crash, a master-data edit or a fact entered by hand in the administration may happen in between. A row lock is refused when the row was written since the snapshot, as PostgreSQL does under repeatable read. `SystemRuns` states what holds over whole runs, starting from an empty queue over any earlier uploads, facts and master data. `PublicationRefinement` and `SerialRuns` compare this system with one in which publication is a single step, and say exactly where they differ. `AttemptLimits` and `RejectedRuns` follow a job whose attempts are used up and a job that was rejected. `ReachableStates` and `ReachableOutcomes` give runs that reach the interesting states.

**Other processes.** Sequences of transactions run with arbitrary transactions of others in between. `OtherProcesses` shows that the token fence alone provides what they assume of those others.

**Calendar.** `Gregorian` defines dates, ordinals and ISO 8601 weeks (section 4.1.4 of ISO 8601:2004, in two formulations proved equal). `CalendarRows` is the application's derivation, `CalendarTrigger` the database trigger's, `CalendarPopulation` the command that fills complete years.

What is assumed: lease tokens are fresh; row locks, advisory locks, unique constraints and rollback work; the calendar of PostgreSQL and Python is the Gregorian one. Two things that the code leaves to its callers are assumed of every run (`QueueSpec.Enabled`): nobody calls `complete_job` with the published status, which it would accept without looking at any fact; only publication reports it; and parse batches arrive in row order, as `_stage_csv` sends them.

## What turned out to be conditional

- The storage limit on issues holds for every input exactly when the limit is at least two. With a limit of one, a detail that a batch has already stored is followed by the summary (`IssueCollection.LimitNeedsTwo`), and what is stored depends on where batches end (`IssueCollection.OneDependsOnBatches`).
- The documentation says that conflicts with immutable facts cannot be requeued (`docs/sales-import-processing.md`, line 59). The code refuses a requeue exactly when a conflict is among the issue details that were kept; one dropped by the issue limit is not seen (`PublicationOutcomes.RequeueGuard`, with the reachable job of `ReachableOutcomes.UnseenConflictRequeued`). The model follows the code.
- A publication that began before a fact was entered by hand may reject its file without seeing that the new fact conflicts with one of its rows, and then counts fewer issues than a publication made in one step. This is the only difference: a commit refines the one-step publication exactly when no row meets a new conflict (`PublicationRefinement.CommitRefinesExactly`, and the reachable commit of `ReachableOutcomes.NewConflictOccurs`). A fact entered by hand can also stop a commit on the unique constraint, exactly when it is one that the commit inserts (`SerialRuns.CollidesExactly`).
- An expired job without attempts left can only fail exactly when no publication that can commit holds its row (`AttemptLimits.OnlyFailsExactly`): the cleanup skips locked rows, and publication looks at its lease only at its start, so it may publish the job after the expiry (`ReachableOutcomes.LatePublicationInserts`).
- The application's calendar row overflows exactly for the last five dates of year 9999 (`CalendarRows.BuildSucceedsExactly`), so every date the table accepts has a row.

## Model

| member | source | states |
|---|---|---|
| ImportSystem.StepSafe | sales_imports/processing.py:891-1047 | every step of any worker, operator or administrator keeps the system invariant: one holder per source, snapshots that agree with the committed facts of their source, locked rows unwritten since the snapshot |
| PublicationRefinement.CommitRefinesExactly | sales_imports/processing.py:644-715 | a commit has the effect of a one-step publication at its commit, with the master data of its snapshot, exactly when no row that resolves and had no fact in the snapshot now has a different one; a commit that publishes always has it |
| PublicationRefinement.CommitsExactly | sales_imports/processing.py:896-1022 | a publication that holds its job row can commit exactly when its unique constraints hold: none of the facts it inserts exists by now, or its issues do not repeat stored ones; its counters are always accepted, and its lease may have run out |
| PublicationRefinement.RetryCommits | sales_imports/processing.py:1031-1047 | the second attempt after a duplicate key, with a new snapshot under the lock it still has, can commit if the lease is live |
| PublicationRefinement.UndisturbedCommits | sales_imports/processing.py:653-658 | in particular a staged file without issues can always be committed while no fact of its source is entered by hand |
| ImportSystem.CommitSafe | sales_imports/processing.py:738-809 | a commit that meets no duplicate key is safe even if facts of its source were entered by hand meanwhile, adds facts of its own source only, and touches no other job |
| ImportSystem.LockedRowsCurrent | sales_imports/processing.py:896-906 | while a publication holds its job row, job, attempt, staged rows and issues are those of its snapshot and its lease check still stands |
| SystemRuns.RunSafe | sales_imports/queue.py:173-844 | over whole runs every state satisfies the invariant and every later state is a legal evolution of every earlier one |
| SerialRuns.RunRefinesSerial | sales_imports/processing.py:1025-1047 | every interleaving of publications, crashes, retries, operators, master-data edits and facts entered by hand is, step by step, a run of a system where publication is atomic, except exactly at the commits that meet a new conflict; the master data of a publication is that of an earlier state, since which the worker has had the lock of its source |
| SerialRuns.CollidesExactly | sales_imports/processing.py:738-809 | the unique constraint on facts stops a publication exactly when a fact it inserts was entered by hand since its snapshot |
| SerialRuns.NewConflictEntered | sales_imports/processing.py:653-658 | a commit meets a new conflict only if a fact under one of its record ids was entered by hand since its snapshot |
| SystemRuns.SnapshotWasCurrent | sales_imports/processing.py:653-658 | the snapshot is an earlier state in which the worker already held the lock of its source, and it has held it since |
| SystemRuns.FactsConserved | sales_imports/processing.py:738-809 | facts added over a run are those entered by hand plus those that published jobs report as inserted; no other ending adds any |
| SystemRuns.FactsFromStart | sales_imports/processing.py:958-1022 | from the start, the number of facts is the initial one plus entries by hand plus the inserted counters of published jobs, and no fact ever changes |
| SystemRuns.PublishedRowsBacked | sales_imports/migrations/0008_processing_audit_guards.py:142-182 | in every reachable state each row of a published attempt is matched by a fact of its source with all its values |
| SystemRuns.FencedForever | sales_imports/queue.py:547-583 | a token that was issued and is not current never becomes current again, and no heartbeat, phase change, batch, retry, completion or publication presenting it changes anything, at any clock reading |
| SystemRuns.OneLiveToken | sales_imports/queue.py:491-544 | a token is live for at most one job |
| SystemRuns.HeldRowNotOvertaken | sales_imports/processing.py:896-906 | while a publication holds its job row nobody else changes that job, its attempts, rows or issues, however long the lease has been over |
| SystemRuns.PublishedForever | sales_imports/queue.py:284-290 | a published job never changes again |
| SystemRuns.OnePublishedAttempt | sales_imports/queue.py:748-825 | at most one attempt of a job is ever published, whichever states of a run are compared |
| SystemRuns.ConflictRejectsForever | sales_imports/queue.py:299-308 | once a conflict with an immutable fact is stored, the job is rejected in every later state |
| SystemRuns.FailedIntakeForever | sales_imports/queue.py:291-294 | a job whose upload failed never changes, so it never runs again |
| SystemRuns.ClaimsBounded | sales_imports/queue.py:463-496 | without operator requeues a job is claimed at most as often as it had attempts left |
| SystemRuns.InitialSafe | sales_imports/models.py:189-240 | the empty queue over any earlier uploads satisfies the invariant |
| ReachableStates.LockedStateOccurs | sales_imports/processing.py:896-906 | for every file that the contract accepts and any facts and master data, a run from an empty queue queues an upload, claims it, stages the file and locks its source and job row for publication |
| ReachableOutcomes.LatePublicationInserts | sales_imports/processing.py:1007-1022 | such a publication commits after the lease of its last attempt has run out, and its fact is inserted |
| ReachableOutcomes.NewConflictOccurs | sales_imports/processing.py:936-956 | a reachable commit that meets a new conflict: it rejects a file for one row while another row's fact was entered by hand, and is no one-step publication |
| ReachableOutcomes.UnseenConflictRequeued | sales_imports/queue.py:299-308 | a reachable job rejected with a conflict that the issue limit dropped, which an operator requeues |
| QueueSafety.PerformSafe | sales_imports/queue.py:173-844 | every queue and intake transaction keeps the invariant and respects the audit triggers |
| QueueSafety.LiveClaimIsNewest | sales_imports/queue.py:569-582 | a leased job has exactly one running attempt under its token, the newest one |
| QueueSafety.LiveClaimDecides | sales_imports/queue.py:547-583 | the fence either yields the newest attempt or reports a lost claim; its state error cannot occur |
| QueueSafety.ClaimSafe | sales_imports/queue.py:463-544 | claiming an eligible job never meets a state error or a duplicate attempt number |
| QueueSafety.ExhaustSafe | sales_imports/queue.py:351-374 | failing exhausted jobs never meets the state error of the expiry update |
| QueueSafety.StoredObjectFailureUnfolds | sales_imports/processing.py:1082-1104 | an unusable stored object fails upload and claim together, exactly under a live lease on a received upload; otherwise nothing changes |
| QueueTermination.IntakeAndJob | sales_imports/queue.py:199-257 | upload and job stay coupled: receiving iff waiting for the file, failed uploads have failed jobs, runnable and finished jobs have a received CSV, received XLSX iff awaiting a parser |
| QueueTermination.JobAndAttempts | sales_imports/models.py:441-528 | processing iff leased, then exactly the newest attempt runs with the job's token and counters; attempts are numbered without gaps within a limit of at most 32767; waiting jobs have attempts left |
| QueueTermination.OpBudget | sales_imports/queue.py:488-496 | attempts grow by claims alone, the limit by requeues alone, and no queue transaction publishes |
| QueueTermination.QueueOnlyFails | sales_imports/queue.py:414-443 | a queue or intake transaction leaves an expired job at its limit as it is or fails it |
| AttemptLimits.AtLimitStep | sales_imports/queue.py:414-443 | an expired job on its last attempt stays as it is, fails, or is finished by the publication that holds its row |
| AttemptLimits.OnlyFailsExactly | sales_imports/processing.py:891-906 | only failing is possible exactly when no publication that can commit holds the row |
| AttemptLimits.OnlyFailsUnlessLocked | sales_imports/processing.py:891-906 | for an attempt without issues, and without facts entered by hand, that is exactly when no session holds the row |
| AttemptLimits.AtLimitFate | sales_imports/queue.py:414-443 | over any late stretch of a run without requeues the job stays, fails for good, or is finished by a publication whose transaction began before the expiry and before that stretch |
| QueueTermination.ExhaustFails | sales_imports/queue.py:393-443 | the cleanup fails every exhausted job of its batch |
| QueueFrames.PerformKeeps | sales_imports/queue.py:194-257 | a transaction writes no facts or master data and no processing job whose row it does not lock |
| QueueMeaning.EnqueueOnce | sales_imports/queue.py:173-257 | every upload has one job with the limit it was created with, which follows the upload's status until it is queued; enqueueing again changes nothing, and a job that becomes queued can be claimed at once |
| QueueMeaning.RequeueReopens | sales_imports/queue.py:260-348 | on a reachable queue, exactly failed jobs of received uploads and rejected jobs without a stored conflict can be requeued, up to 32767 attempts; the limit grows by exactly the added attempts, the job can be claimed at once, cannot be requeued twice, and its history stays |
| QueueService.ImportQueue.MarkExhaustedBatch | sales_imports/queue.py:414-443 | at most 100 unlocked jobs at their limit, first in queue order, fail together or not at all |
| QueueService.ImportQueue.ClaimNextJob | sales_imports/queue.py:446-544 | on a reachable queue it fails only for bad arguments; after the cleanup of at most 100 jobs it claims the least, by time, creation and key, of the unlocked jobs with attempts left that have waited until their time or whose lease has run out; it finds none exactly when there is no such job |
| QueueMeaning.ClaimMeans | sales_imports/queue.py:491-544 | a claim leases the job to the worker under the new token until now plus the lease, starts a running attempt without rows, issues or counts, and closes an attempt whose lease ran out |
| QueueMeaning.ExhaustMeans | sales_imports/queue.py:377-443 | the cleanup fails each job of its batch with its own code and closes its running attempt; nothing else changes |
| QueueService.ImportQueue.LockedLiveClaim | sales_imports/queue.py:547-583 | finds the attempt behind a live lease, and nothing without one |
| QueueMeaning.HeartbeatRenews | sales_imports/queue.py:586-613 | succeeds exactly for a live lease, which is then live exactly until the new expiry; every other job, row, issue, fact and upload stays |
| QueueMeaning.PhaseMoves | sales_imports/queue.py:616-637 | succeeds exactly for a live lease and changes nothing but the phase of its attempt |
| QueueService.ImportQueue.RecordBatch | sales_imports/processing.py:215-277 | appends a parse batch under the fence, or rolls back |
| QueueService.ImportQueue.ScheduleRetryJob | sales_imports/queue.py:660-745 | ends the attempt; with attempts left the job waits the smaller of the base doubled for every earlier attempt and the maximum, otherwise it fails |
| QueueMeaning.RetryMeans | sales_imports/queue.py:694-745 | a retry succeeds exactly for a live lease with positive durations if attempts are left, and then the job can be claimed exactly when its wait is over |
| QueueMeaning.LaterRetriesWaitLonger | sales_imports/queue.py:716-730 | later retries of a job never wait less |
| QueueService.ImportQueue.CompleteClaim | sales_imports/queue.py:756-844 | commits a terminal transition of a live claim with accepted counters, or changes nothing |
| QueueMeaning.CompleteMeans | sales_imports/queue.py:748-844 | it succeeds exactly for a terminal status, a live lease and accepted counters, and records status, counters, time, code and the matching outcome of the attempt |
| QueueMeaning.ValidMeans | sales_imports/queue.py:63-90 | which counters each terminal status accepts |
| QueueService.ImportQueue.CompleteStoredObjectFailure | sales_imports/processing.py:1082-1104 | rolls the upload back when the claim was lost |
| QueueMeaning.TransitionMoves | sales_imports/models.py:260-322 | a transition that succeeds moves one upload from its expected status and records its trimmed version or its failure code with the time; one that fails changes nothing |
| QueueMeaning.FirstTransitionWins | sales_imports/models.py:260-322 | of competing transitions of an upload the first wins, the others fail and change nothing, and a failed upload stays failed |
| RetryDelay.ComputeRetryDelay | sales_imports/queue.py:148-170 | the loop returns exactly min(base * 2^(n-1), maximum), and refuses exactly the arguments the code refuses |
| RetryDelay.DelayDoublesThenSaturates | sales_imports/queue.py:166-170 | each further attempt doubles the delay until the maximum, and stays there |
| RetryDelay.DelayMonotone | sales_imports/queue.py:166-170 | delays are positive, never decrease and never exceed the maximum |
| IntakeService.ReceiveSalesImport | sales_imports/services.py:41-112 | whatever others commit meanwhile: a receiving or received upload of the same content is returned with its job, otherwise at most one is created, under the new id; a stored one is received with its job queued or awaiting a parser; it raises exactly when it lost the race for the insert to an upload no longer active, or for its own transition |
| IntakeService.Reconcile | sales_imports/management/commands/reconcile_sales_imports.py:45-80 | the loop leaves the database and the counters of its item-by-item definition |
| IntakeService.ReconcileSafe | sales_imports/management/commands/reconcile_sales_imports.py:46-80 | reconciliation keeps the queue safe and counts each listed upload at most once |
| IntakeService.TurnSettles | sales_imports/management/commands/reconcile_sales_imports.py:59-101 | an upload still receiving at its turn, with or without a job, becomes received with its version and a job, failed as missing or mismatching with a failed job, or is deferred unchanged |
| IntakeService.Handle | sales_imports/management/commands/reconcile_sales_imports.py:29-92 | the command asks to be run again exactly when some object could not be checked, and leaves no other listed upload receiving |
| ClaimProcessing.RouteFailure | sales_imports/processing.py:1210-1256 | under a live lease each handled exception settles the job with its own code: retried while attempts are left, after 30 seconds doubled up to 15 minutes, otherwise failed, with the upload failed as missing or mismatching exactly for an unusable object; without one nothing changes |
| ClaimProcessing.RoutedFailureSettles | sales_imports/processing.py:1210-1256 | for a live claim no handler can raise: the job is retried while attempts are left, otherwise failed, and the upload fails exactly for an unusable object |
| ClaimProcessing.ContractRejectionSettles | sales_imports/processing.py:1187-1198 | a file that staging rejects is always accepted as rejected, with at least one issue counted |
| QueueService.ParseBatchCommits | sales_imports/processing.py:225-277 | a batch that fits the constraints is recorded exactly while its attempt's claim is live; it sets the counters and the phase and renews the lease for five minutes |
| SalesHeaders.AcceptedIsPermutation | sales_imports/contracts.py:109-143 | headers are accepted iff, after removing a byte-order mark, they are a permutation of the nine columns |
| SalesHeaders.RefusedHeaders | sales_imports/contracts.py:116-142 | which error a refused header has: repeated columns come before missing ones, and those before unknown ones |
| SalesContract.AcceptedRow | sales_imports/contracts.py:314-469 | a row without issues meets every staged-row constraint on text, sign and currency |
| SalesContract.ResultIsGood | sales_imports/contracts.py:435-469 | every result is one that staging accepts, and the duplicate issue appears iff the trimmed id was seen before |
| CellMeaning.UpperMeans | sales_imports/contracts.py:189-190 | upper-casing changes the letters a to z and nothing else |
| SalesHeaders.MarkRemoved | sales_imports/contracts.py:112-114 | a byte-order mark before the first column is removed, and nothing else |
| SalesFile.SalesRowsV1Validator.NoteRow | sales_imports/contracts.py:156-164 | counts a row and rejects the file beyond the limit |
| SalesFile.SalesRowsV1Validator.Validate | sales_imports/contracts.py:314-469 | returns the contract's result for the row and remembers its id even if the row is invalid; every field of an accepted row is what the cell of its own column says |
| RowMeaning.RowIssueMeans | sales_imports/contracts.py:314-469 | exactly which issues a row has, with the limits of each column: those of its cells, and for a currency that is no code, no quantity, opposite signs and a repeated id |
| CellMeaning.DecimalRoundTrip | sales_imports/contracts.py:262-312 | the decimal text of every number within the digit limits, negative ones included, is accepted and means that number |
| CellMeaning.ZerosIgnored | sales_imports/contracts.py:296-311 | zeros before the whole part and after the fraction do not change the number |
| CellMeaning.MinusNegates | sales_imports/contracts.py:296-311 | a leading minus negates the number |
| CellMeaning.DecimalMeans | sales_imports/contracts.py:284-311 | a decimal text is accepted exactly within 64 characters and the digit limits, and means its digits read as one number, shifted |
| CellMeaning.DecimalRefused | sales_imports/contracts.py:270-294 | every other text is refused, with the code that says why |
| CellMeaning.DateRoundTrip | sales_imports/contracts.py:212-255 | the text of every date up to 9998 is accepted and means that date |
| CellMeaning.DateMeans | sales_imports/contracts.py:212-255 | only the text of such a date is accepted, others have one issue |
| CellMeaning.TextMeans | sales_imports/contracts.py:167-212 | what a text cell means, trimmed and upper-cased where it is a code, and exactly which issues it has |
| CellMeaning.StripMeans | sales_imports/contracts.py:177 | trimming removes the whitespace around a text and nothing else |
| SalesFile.IterSalesRows | sales_imports/contracts.py:472-527 | yields one result per non-blank record up to the limit, then the limit error, and otherwise ends as the stream does; each result has the number of its record's first line, and an accepted row has in each field what the cell under that field's header says |
| SalesFile.FileEnds | sales_imports/contracts.py:482-527 | how many results a file yields and with which code it ends |
| SalesFile.BlankMeans | sales_imports/contracts.py:495 | a record is skipped exactly when all its cells are whitespace |
| SalesFile.RecordRow | sales_imports/contracts.py:489-497 | every non-blank record is a row, in its place, numbered by its first line |
| SalesFile.RowNumbers | sales_imports/contracts.py:490-497 | row numbers are at least 2 and strictly increase |
| SalesFile.ReadIsGood | sales_imports/contracts.py:472-527 | every file yields what staging requires: increasing row numbers, distinct accepted ids, constrained rows, at most the limit |
| SalesFile.DuplicatesFlagged | sales_imports/contracts.py:435-446 | a row is flagged iff an earlier row of the right width, valid or not, had the same trimmed id |
| SalesFile.FileColumnOrderIrrelevant | sales_imports/contracts.py:482-516 | one permutation of the columns of header and nine-cell rows changes neither acceptance nor any result, issue order or flag |
| IssueCollection.IssueCollector.Add | sales_imports/processing.py:140-170 | counts an issue unless its identity was counted since the last drain, and retains it while there is room |
| IssueCollection.IssueCollector.Drain | sales_imports/processing.py:172-178 | hands out the retained details, a prefix of all counted issues |
| IssueCollection.IssueCollector.Persisted | sales_imports/processing.py:180-197 | all that was handed out together is the first details, plus the summary if any was dropped |
| IssueCollection.ReleaseIsStored | sales_imports/processing.py:155-197 | with a limit of at least two, where batches end does not matter to what is stored |
| IssueCollection.StoredShape | sales_imports/processing.py:155-197 | stored issues never exceed the limit: they are all issues, or the first details and a summary exactly when something was dropped |
| IssueCollection.LimitNeedsTwo | sales_imports/processing.py:180-197 | the limit is respected for all inputs and drain points iff it is at least two |
| IssueCollection.OneDependsOnBatches | sales_imports/processing.py:177-196 | with a limit of one the stored issues depend on the batches |
| Staging.StageCsv | sales_imports/processing.py:280-375 | whatever others who do not present its token commit before each batch: if the claim stays live, the staged rows, stored issues, counters and decision do not depend on the batch size; a lost claim leaves a prefix of the rows; a worker in time whose claim nobody ends keeps it |
| Staging.RecordFenced | sales_imports/processing.py:215-277 | a batch of the loop is appended exactly while the claim is live, and renews it |
| OtherProcesses.StepLeavesRows | sales_imports/processing.py:225-240 | a step of the system that does not present an attempt's token leaves its rows and issues alone |
| OtherProcesses.StepLeavesClaim | sales_imports/queue.py:547-583 | nor does it end the claim, if its clock shows a time at which the lease is live |
| OtherProcesses.OthersAreLegal | sales_imports/queue.py:547-583 | so every run in which nobody else presents the token is an environment as staging and publication assume it |
| OtherProcesses.EnvironmentOccurs | sales_imports/processing.py:215-277 | with such runs before every batch, reading clocks that the worker's has reached, staging and publication are neither disturbed nor hindered |
| OtherProcesses.TransactionOfOthers | sales_imports/queue.py:463-544 | for instance any transaction that presents another token or none, such as claiming the expired job again |
| Staging.EveryValidRowStaged | sales_imports/processing.py:299-339 | every valid row is staged once, in order |
| Staging.AllIssuesFacts | sales_imports/processing.py:321-357 | counted issues are distinct across batches, cover every invalid row, and exist for every rejected file |
| Staging.RowDetailsMean | sales_imports/processing.py:316-339 | the row issues of a file are those of its invalid rows |
| Staging.FileLevelIssue | sales_imports/processing.py:340-357 | a file-level error adds one issue with its code that belongs to no row |
| Staging.RejectedMeans | sales_imports/processing.py:358-375 | a file is rejected exactly when it did not end normally or has an invalid row |
| Staging.StagedCountersAccepted | sales_imports/queue.py:63-90 | the counters of a staged file are accepted for the status it leads to |
| ReferenceValidation.EffectiveAssignments | sales_imports/processing.py:385-427 | for its rows the filtered assignments answer whether some assignment of the pair has begun and has not ended before the date, both bounds included |
| ReferenceValidation.AdjoiningPeriods | business_data/validation.py:27-34 | two adjoining periods are effective on exactly the days from the first to the last, both included |
| ReferenceValidation.LoadChunk | sales_imports/processing.py:437-487 | the filtered tables of a chunk answer every question of its rows like the full ones |
| ReferenceValidation.ValidateRow | sales_imports/processing.py:491-609 | the checks against the filtered tables find exactly the issues of the row against the whole database; it is resolved iff it is acceptable, and then to the entries under its own four codes |
| ReferenceValidation.IssueMeans | sales_imports/processing.py:491-609 | exactly which issue each failed check gives, with its column, code and phase |
| ReferenceValidation.InvalidMeans | sales_imports/processing.py:587-609 | the counter of invalid rows is the number of rows that are not acceptable |
| ReferenceValidation.ValidateSalesDimensions | business_data/validation.py:37-99 | an error is raised exactly when the territory is no leaf, or no assignment of the saved object to it covers the date, both bounds included; on the objects that a row names, the errors are those the import reports for the row |
| ReferenceValidation.SameErrors | business_data/validation.py:58-96 | on rows whose codes resolve, import and single-record validation report the same territory, hospital and representative errors |
| ReferenceValidation.IssuesCoverInvalid | sales_imports/processing.py:587-609 | every invalid row contributes a counted issue |
| ReferenceValidation.AllRowIssuesUnique | sales_imports/models.py:950-953 | the issues of a validated file have distinct identities |
| Publication.Publisher.ResolveAndValidateChunk | sales_imports/processing.py:430-623 | a chunk adds exactly the issues of its rows, writes to the acceptable ones the product, territory, hospital and representative under their own codes, and leaves all else |
| Publication.Publisher.LinkOrInsertChunk | sales_imports/processing.py:738-809 | a chunk links existing facts and inserts missing ones, or with any conflict writes nothing |
| Publication.Publisher.LinkPass | sales_imports/processing.py:958-983 | all chunks are linked, seeing the facts of earlier chunks, or the savepoint restores everything; it refuses iff a row conflicts with the facts before the pass |
| Publication.Publisher.Publish | sales_imports/processing.py:911-1022 | carries out the plan for every chunk size; it publishes iff every row is acceptable, and then each row has a fact with its own values and the references of its own codes, reused if it existed; the second pass never rejects what the first accepted |
| Publication.PlanMeans | sales_imports/processing.py:941-1021 | which plan it is, and what each of its counters counts |
| FileToFacts.FileDecides | sales_imports/processing.py:891-1022 | a file that the contract accepts and that was staged under a live claim is published iff every record's references resolve and no fact under its id differs; then every record has a fact with its own date, measures and currency and the product, territory, hospital and representative of its own codes, otherwise no fact is added; job, code and counters say which |
| FileToFacts.ProcessFile | sales_imports/processing.py:1176-1209 | read, stage, then reject or publish, whatever others commit in between: the outcome is decided by the file and the database of the last transaction, for every batch size; a claim in time that nobody touches is not lost, and a lost one writes nothing more |
| PublicationService.PublishClaim | sales_imports/processing.py:891-1022 | the fenced two-pass publication on the tables leaves the database of its one-step specification, for every chunk size |
| PublicationOutcomes.PublishesExactly | sales_imports/processing.py:936-958 | a file is published iff every row is accepted |
| PublicationOutcomes.AcceptedMeans | sales_imports/processing.py:491-609 | a row is accepted iff its date is in the calendar, its codes resolve, its territory is a leaf, its identities are assigned to it on that day, and a fact under its id, if any, agrees with it field by field |
| PublicationOutcomes.RepublishReuses | sales_imports/processing.py:761-790 | publishing the same rows again with unchanged master data inserts nothing and reuses all, whatever was added in between |
| PublicationOutcomes.RequeueGuard | sales_imports/queue.py:299-308 | after a rejected publication a requeue by any number of attempts within the limit is refused iff a conflict is among the kept issue details |
| RejectedRuns.CommitGuard | sales_imports/queue.py:299-308 | the same after a commit, for the issues found against its snapshot |
| RejectedRuns.RequeueLater | sales_imports/queue.py:284-330 | in every later state, until it is requeued, a rejected job and its stored conflicts are unchanged, and it can be requeued exactly when it could be at first |
| PublishTransaction.PlannedFits | sales_imports/queue.py:63-90 | every plan satisfies the table constraints, the counter checks of its status and the row trigger, and inserts only missing keys of its source, as many as it reports |
| PublishTransaction.LinkedSatisfiesTrigger | sales_imports/migrations/0008_processing_audit_guards.py:86-182 | each finalized row passes the staged-row trigger against the facts of its transaction |
| PublishTransaction.PublishOnceSafe | sales_imports/processing.py:891-1022 | publication keeps the invariant, and for an attempt without issues it succeeds exactly under a live claim |
| PublishTransaction.PlannedLocal | sales_imports/processing.py:480-487 | a plan depends only on the facts of its own source |
| Gregorian.WeekDatesAgree | business_data/calendar.py:91 | numbering a week by its Thursday and counting weeks from the first Monday give the same ISO year, week and weekday |
| Gregorian.WeekDateDetermines | business_data/migrations/0004_calendar_timezone_and_source_whitespace.py:47-49 | ISO year, week and weekday determine the date |
| Gregorian.LeapYears | business_data/calendar.py:88-124 | the years in which February has 29 days, and the length of every year |
| Gregorian.KnownDates | business_data/calendar.py:88-97 | fixed points: the first day and two known weekdays |
| CalendarRows.BuildSucceedsExactly | business_data/calendar.py:88-124 | the row overflows exactly for dates from 9999-12-27 on |
| CalendarRows.SupportedDatesBuild | business_data/models.py:62-67 | every date the table accepts has a row |
| CalendarRows.RowBounds | business_data/calendar.py:76-118 | week, month, quarter and year bounds in closed form |
| CalendarRows.RowFields | business_data/calendar.py:76-124 | the remaining fields: quarter, day of the year, weekend, names and labels |
| CalendarRows.YearTextMeans | business_data/calendar.py:120-124 | labels write a year with its four digits |
| CalendarRows.WeeksTile | business_data/calendar.py:111-112 | weeks tile the calendar without gap or overlap |
| CalendarRows.MonthsTile | business_data/calendar.py:113-114 | months tile the calendar |
| CalendarRows.QuartersTile | business_data/calendar.py:115-116 | quarters tile the calendar |
| CalendarRows.YearsTile | business_data/calendar.py:117-118 | years tile the calendar |
| CalendarRows.KeysFollowDates | business_data/calendar.py:98 | date keys are strictly increasing in the date |
| CalendarRows.WeekFieldsIdentify | business_data/calendar.py:106-108 | the ISO fields identify a row |
| CalendarTrigger.DeriveCalendarDate | business_data/migrations/0004_calendar_timezone_and_source_whitespace.py:16-77 | the trigger's assignments derive the whole row from the date, whatever the statement supplied |
| CalendarTrigger.DerivationsAgree | business_data/migrations/0004_calendar_timezone_and_source_whitespace.py:28-74 | the trigger and the application agree on every field of every date before 9999-12-27, the first whose row overflows |
| CalendarTrigger.SupportedDatesAgree | business_data/calendar.py:88-124 | in particular for every date up to the end of 9998 |
| CalendarPopulation.DateRange | business_data/management/commands/populate_calendar.py:19-25 | terminates and yields exactly the consecutive dates of the range, each once |
| CalendarPopulation.CalendarTable.InsertIgnoringConflicts | business_data/management/commands/populate_calendar.py:99-103 | inserts the derived rows of missing dates and leaves stored ones alone |
| CalendarPopulation.CalendarTable.Populate | business_data/management/commands/populate_calendar.py:94-111 | every date of the range is stored, existing rows are untouched, and what is added is the application's row |
| CalendarPopulation.SecondRunCreatesNone | business_data/management/commands/populate_calendar.py:63-66 | populating again changes nothing |
| CalendarPopulation.Verify | business_data/management/commands/populate_calendar.py:114-149 | reports the earliest inconsistent date of a complete range, an incomplete range, or neither |
| CalendarPopulation.Handle | business_data/management/commands/populate_calendar.py:45-91 | succeeds iff the years are accepted and no stored row of the range is inconsistent, then reports how many rows it created; otherwise nothing changes |

## Left out

- Messages of errors and issues, the stored error texts, and the list of inconsistent fields that calendar verification prints.
- Display metadata of uploads and their KMS key; recording a historical key is not part of this model, and the backfill command is only the step that marks received and enqueues.
- Storage, download and file inspection: their outcomes are parameters (`IntakeService.StoreOutcome`, `IntakeService.Verification`, `ClaimProcessing.ProcessingFailure`).
- Python's CSV reader and UTF-8 decoding: files are records with their number of physical lines, followed by an end, a malformed part or undecodable bytes.
- Django's DecimalValidator: decimals are scaled integers, accepted within the digit limits its arguments state.
- Unicode: trimming, upper-casing and control characters are those of ASCII.
- IntakeService.Reconcile: which receiving uploads are old enough to be listed is a parameter; creation times of uploads are not part of this model.
- FileToFacts.ProcessFile: publication is one step here, with its locks taken between transactions of others; its interleaved form is `ImportSystem` and `SystemRuns`. Heartbeats and the phase updates between the steps are transactions of `QueueSpec`, covered by any run.
- SHA-256 and the advisory-lock key: there is one lock per source; a collision of keys would only serialise more.
- Waiting times, polling and heartbeat rate limits: clocks are arbitrary and waiting is the absence of a step.
- Foreign-key effects of deleting master data that facts or staged rows refer to, and the rules that master data itself obeys.
- CalendarPopulation.CalendarTable.InsertIgnoringConflicts: other constraints than the date and key of stored rows are not modelled, so stored rows may hold anything else.
- The administration, views, forms, permissions, settings and setup scripts, except that a fact can be entered by hand and master data edited at any time.
