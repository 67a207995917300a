# A Dafny model of Recorder Next's durable core

The project models the parts of Recorder Next in which a mistake loses or duplicates a user's data, and
proves what they promise. Each source component has its own modules: a specification (datatypes and
functions), lemmas about it, and, where the source updates things in place, methods or a class proved
equal to the specification. The `*_outcomes.dfy` modules (and `worker_consequences.dfy`) say what each operation
answers and writes in terms of the fields of the rows before and after it, apart from the specification
functions. `dafny verify dfyconfig.toml` checks everything.

| files | component | form |
|---|---|---|
| `worker_*.dfy` | job table and attempt ledger: leases, fencing tokens, retries, deadlines, terminal projection, the worker's turn | steps over tables; a `Store` class whose methods run them; theorems over every run |
| `publication*.dfy` | publishing update artifacts, cleanup receipts, leased recovery that deletes files | one durable state per effect, a crash possible after each; a class with an effect budget |
| `history*.dfy` | history pages filtered after a bounded scan | row-at-a-time specification; batched loops equal to it |
| `diagnostics_export.dfy` | export of three merged sources under row and byte limits | specification and loop |
| `eavesdrop*.dfy` | sessions, segments, routing decisions, frozen requests, results | steps over one session; a `Sessions` class |
| `wav_*.dfy` | the buffer reader and the streaming reader of WAV files | a chunk grammar; both loops proved against it |
| `provider_chain.dfy`, `fallback_graph.dfy` | provider fallback executor, fallback graph checks | nested loops against a log of calls |
| `schema*.dfy` | response validator and projector | recursive functions |
| `hermes_wire.dfy` | size bound of a Hermes request | recursive functions |
| `http_framing.dfy`, `lifecycle.dfy`, `byte_range.dfy`, `text.dfy` | header end, Content-Length, handler slots and drain, byte ranges | classes, methods, a state machine |

Conventions. A transaction is a function from the tables to new tables or an error; an error leaves the
tables as they were, which is what `RecorderStore._tx` (recorder_next/store.py:1034-1046) does. Times are
milliseconds. Rows that SQL returns in no specified order are walked in any order, and ties that the code
breaks by a hash are left free, so the theorems hold for every order. Identifiers that the code derives with
uuid5 are modelled by what they are derived from. SHA-256 digests are compared, never computed. Answers of
providers, routing agents, preflight checks and the clock are arbitrary.

Where the code and its surroundings disagree, the model follows the code:

- Ending a Hermes job that owes its turn's final outcome enqueues a history job under
  `hermes-history:<submission>` (recorder_next/features.py:1195-1206). If another job holds that key with another
  kind, stage, chain or payload, the enqueue raises (recorder_next/features.py:1260-1263) and the whole
  transaction is rolled back: the job does not end, and once it is overdue no claim returns.
  `enqueue_worker_job` takes such a key; no caller in the repository passes one, and
  recorder_next/store.py:3151-3168 is the only other place that enqueues there, with the same row.
  `WorkerSweeps.TerminaliseRaises`, `WorkerSweeps.RecoveryRaises` and `WorkerClaim.WhenClaimsRaise` are the exact
  conditions, `WorkerHistory.HistoryKeyClash` and `WorkerLoop.ReportClash` concrete runs, and
  `WorkerHistory.ClaimsReturn`, `WorkerHistory.RecoveryReturns` and `WorkerLoop.EndingReportsEnd` say that nothing
  of the kind happens in runs that enqueue nothing else under history keys.
- A claim may set a lease that ends after the job's overall deadline (recorder_next/features.py:1376); only
  renewal clamps it. What holds is that success happens before both (`WorkerRuns.HowJobsSucceed`).
  `WorkerClaim.WhenClaimedLeaseMeetsDeadline` is the exact condition, `WorkerClaim.ClaimedLeaseOutlastsDeadline` a
  concrete run.
- A history page can raise although later rows would fit: the part budget can be exhausted before any row is
  accepted. `HistoryPages.PageRaises` gives the exact condition, `HistoryPages.CrowdedTurnBlocksHistory` a concrete
  table; the page theorems are about pages that return.
- The export cursor is (time, type, id) without the tombstone's entity type, so two tombstones can share a key and
  a page boundary between them loses one. `DiagnosticsExport.WhenExportIsComplete` is the exact condition,
  `DiagnosticsExport.TombstonesCanCollide` a concrete table. The service itself issues random ids.
- Projecting a response takes the first `oneOf` alternative whose required names are present, so an accepted
  history payload of a worker job loses its session and submission
  (`SchemaProjection.WhenWorkerPayloadSurvives`, `SchemaProjection.HistoryPayloadIsCut`).
- One base64 symbol left over after whole groups of four is not paid for by the size estimate, and an image
  held as a nested object is not charged at all; `HermesWire.WhenEstimateBounds` is the exact condition,
  `HermesWire.LeftoverSymbolIsNotPaidFor` and `HermesWire.NestedImageIsNotPaidFor` the two families of bodies.
- The label `STOPPED` is left again by a second shutdown request (`Lifecycle.WhenLabelLeavesStopped`); the
  operation count is what is stable (`Lifecycle.QuietForever`).
- Marking a session `EXPIRED` and then raising leaves no mark (`EavesdropSafety.WhoExpiresSessions`).

## Model

| member | source | states |
|---|---|---|
| WorkerInvariant.StepKeeps | recorder_next/features.py:1272-1666 | every operation, committed or raised, keeps the ledger invariant and lets each job only move forward |
| WorkerInvariant.ClaimKeeps | recorder_next/features.py:1371-1447 | a claim with its three sweeps, in any row order, keeps the invariant |
| WorkerInvariant.RenewKeeps | recorder_next/features.py:1449-1468 | a renewal keeps the invariant; a lapsed deadline ends the job instead |
| WorkerInvariant.EffectKeeps | recorder_next/features.py:1488-1509 | an effect check keeps the invariant and wins nothing |
| WorkerInvariant.CompleteKeeps | recorder_next/features.py:1545-1592 | completion keeps the invariant, and succeeds only a live claim before its deadline, touching no other job |
| WorkerInvariant.FailKeeps | recorder_next/features.py:1594-1643 | a reported failure retries, ends or refuses, keeps the invariant and never succeeds a job |
| WorkerInvariant.RecoverKeeps | recorder_next/features.py:1645-1666 | recovery of expired leases keeps the invariant, row by row in any order |
| WorkerInvariant.TerminaliseKeeps | recorder_next/features.py:1470-1477 | ending a job at its deadline closes its running attempt and keeps the invariant |
| WorkerInvariant.ProjectedKeeps | recorder_next/features.py:1158-1222 | the terminal projection touches no job but the one history job it may add, and keeps the invariant; what it writes beside the ledger is WorkerSweeps.ProjectionDoes |
| WorkerRuns.LedgerInEveryRun | recorder_next/features.py:1371-1477 | in every run: attempts are numbered 1..attempt_count ≤ max_attempts; claimed iff exactly one runs, the newest, with the job's owner and token; a terminal attempt is the last one and matches the job's status |
| WorkerRuns.StaleIsPowerless | recorder_next/features.py:1479-1514 | a superseded token passes no check, renews nothing and changes no job through complete or fail |
| WorkerRuns.FencedForever | recorder_next/features.py:1449-1514 | and that stays so in every later run |
| WorkerRuns.ForeignIsPowerless | recorder_next/features.py:1479-1487 | a token that was never issued has no effect |
| WorkerRuns.HowJobsSucceed | recorder_next/features.py:1545-1592 | only a completion by the live claim succeeds a job, strictly before its lease expiry and its deadline |
| WorkerRuns.EndedForever | recorder_next/features.py:1545-1592 | an ended job never changes again, its receipt included |
| WorkerRuns.FuelBoundsChanges | recorder_next/features.py:1423-1437 | each state change of a job pays from a measure fixed at its creation |
| WorkerRuns.ChangesAreBounded | recorder_next/features.py:1621-1666 | hence the number of state changes of a job in any run is bounded |
| WorkerQuiescence.StepPays | recorder_next/features.py:1158-1222 | every operation that changes more than leases lowers one potential over all jobs and open turns, spawned history jobs included |
| WorkerQuiescence.WorkRunsOut | recorder_next/features.py:1272-1666 | without new enqueues, the number of effective steps of any run is bounded by the potential it starts with |
| WorkerClaim.HistorySpawnsOnce | recorder_next/features.py:1189-1206 | one projection adds at most the history job of its submission; ending a history job adds none, and a turn that has spawned one does not spawn another |
| WorkerClaim.ClaimLeavesNothingOverdue | recorder_next/features.py:1378-1447 | a claim raises exactly when a row of its sweeps is blocked by a foreign job at its history key; after a claim that returns nothing active is past its deadline, the job handed out is held by the caller alone with all its earlier tokens dead, and none is handed out only if no available job has attempts left |
| WorkerClaim.WhenClaimsRaise | recorder_next/features.py:1378-1422 | told from the tables before the claim: it raises exactly when some row to be ended would enqueue a history job whose key another job holds, and no earlier row has closed its turn |
| WorkerClaim.OverdueJobBlocksClaims | recorder_next/features.py:1378-1422 | while one such job is overdue and no other active job would close its turn, no later claim by anyone commits anything |
| WorkerClaim.LiveLeaseSurvives | recorder_next/features.py:1379-1447 | a claim that returns ends a job under a live lease exactly when its deadline is reached, its artifact has expired, or an overdue speech job expires it, all told from the tables before the claim; it never hands the job to anyone else |
| WorkerClaim.ProjectFrame | recorder_next/features.py:1158-1222 | a projection leaves every existing job as it was and adds at most the history job of its submission |
| WorkerClaim.RenewalIsClamped | recorder_next/features.py:1449-1468 | an extended lease ends by the deadline and no later than asked, lies ahead, and is all that changed; when it is extended is WorkerOutcomes.WhenRenewed |
| WorkerClaim.WhenClaimedLeaseMeetsDeadline | recorder_next/features.py:1376 | a claimed lease ends by the deadline exactly when the lease asked for does |
| WorkerClaim.ClaimedLeaseOutlastsDeadline | recorder_next/features.py:1376 | a concrete run in which the lease of a claim ends 55 seconds past the deadline |
| WorkerClaim.RetryWaitsItsDelay | recorder_next/features.py:1618-1627 | a job waiting for a retry becomes runnable exactly when its delay is over and its deadline not reached |
| WorkerSweeps.TerminaliseRaises | recorder_next/features.py:1470-1477 | ending a job from outside raises exactly when it would enqueue a history job whose key another job holds |
| WorkerSweeps.RecoveryRaises | recorder_next/features.py:1645-1666 | recovery of one expired lease raises exactly when it ends the job and that key is held |
| WorkerSweeps.ProjectionDoes | recorder_next/features.py:1127-1222 | what ending a job writes beside its row, for every job: a waiting decision at its session and segment fails, its open turn gets the outcome of its stage, its pending speech expires, its ingress row is marked failed if a Hermes job closed the turn, and nothing else differs |
| WorkerOutcomes.WhenRenewed | recorder_next/features.py:1449-1468 | for the holder before the deadline a renewal is answered true exactly while the lease is ahead, the new expiry is now plus the lease cut to the deadline, and nothing else changes; at the deadline the job ends; anyone else is answered false |
| WorkerOutcomes.WhenEffectPasses | recorder_next/features.py:1488-1514 | the check passes exactly for the holder under its lease, for its stage and turn, before the deadline |
| WorkerOutcomes.WhenEnqueued | recorder_next/features.py:1241-1335 | an enqueue returns exactly within the attempt limits, under a live fence if one is given, and for a new key or the same request; a new key gets a pending row without attempts, a known one changes nothing |
| WorkerOutcomes.WhenCompleted | recorder_next/features.py:1545-1592 | a well-formed receipt naming the job succeeds it exactly under a live claim before the deadline; afterwards only the winner may repeat the same receipt, or learn that it was late; every other case is told apart by its error |
| WorkerOutcomes.WhenReceiptBinds | recorder_next/features.py:1517-1561 | a receipt binds exactly if it names no other job or key, has an effect id and one of three statuses |
| WorkerOutcomes.WhenFailed | recorder_next/features.py:1594-1643 | a failure reported by the holder requeues the job after the delay asked for or the doubling one, or ends it; everyone else is refused |
| WorkerOutcomes.BackoffDoubles | recorder_next/features.py:1618-1627 | the delay chosen is 1, 2, 4, up to 256 seconds by attempts made |
| WorkerOutcomes.WhenRecovered | recorder_next/features.py:1645-1666 | an expired lease makes the job runnable at once, or ends it if its deadline or its last attempt is behind it |
| WorkerOutcomes.TerminaliseEnds | recorder_next/features.py:1470-1477 | ending from outside writes the row, closes the running attempt and has exactly the consequences of that job |
| WorkerConsequences.WhenClaimed | recorder_next/features.py:1371-1447 | every row after a claim, told from the tables before it: which jobs end with which error, what that entails, and that the job handed out is runnable and due first, with a new attempt open |
| WorkerConsequences.WhenPassReturns | recorder_next/features.py:1645-1666 | a recovery pass rewrites exactly the expired leases, each as its own row says, with exactly the consequences of those it ended |
| WorkerConsequences.StepConsequences | recorder_next/features.py:1158-1222 | whatever operation commits, it writes beside the ledger exactly the consequences of the jobs it ended without success |
| WorkerConsequences.LedgerNeverDelivers | recorder_next/features.py:1168-1173 | in no run does the ledger deliver a decision or reopen a turn: a decision stays as it was, or was waiting and has failed |
| WorkerSweeps.SweepPhaseOutcome | recorder_next/features.py:1378-1422 | the three sweeps together either raise at a blocked row, or end exactly the rows they met, close exactly the turns and expire exactly the artifacts of those rows, and add only history jobs |
| WorkerSweeps.ArtifactsAfterDeadlines | recorder_next/features.py:1127-1156 | the artifact a deadline sweep leaves, told from the tables before it |
| WorkerHistory.RunKeepsHistory | recorder_next/features.py:1195-1206 | in runs that enqueue nothing else there, a history key is held only by the history job of its submission |
| WorkerHistory.OneHistoryJob | recorder_next/features.py:1195-1206 | in such a run a submission never has two history jobs: the one it may have sits at its key |
| WorkerHistory.ClaimsReturn | recorder_next/features.py:1371-1447 | in such a run every claim returns, for any rows in any order |
| WorkerHistory.RecoveryReturns | recorder_next/features.py:1645-1666 | and so does every recovery pass |
| WorkerHistory.EndingReturns | recorder_next/features.py:1470-1477 | and every ending of a job from outside |
| WorkerHistory.HistoryKeyClash | recorder_next/features.py:1272-1335 | a concrete run of two enqueues after which, once the deadline has passed, no claim commits |
| WorkerLoop.LateWorkerIsHarmless | recorder_next/features.py:3748-3775 | a worker that lost its claim while its handler ran changes nothing when it reports, whatever it reports |
| WorkerLoop.ReportOfLiveClaim | recorder_next/features.py:3748-3775 | what a report does to a job under a live claim: a bound receipt succeeds it, a retryable error with attempts left requeues it, a handler that gave up leaves it alone; anything else ends it, except that nothing changes exactly when its history key is held by another job |
| WorkerLoop.EndingReportsEnd | recorder_next/features.py:3748-3775 | in runs that enqueue nothing else under history keys every ending report ends its job |
| WorkerLoop.ReportClash | recorder_next/features.py:1195-1206 | a concrete run in which a permanent failure reported by the live worker changes nothing |
| WorkerLoop.OnlyReceiptsSucceed | recorder_next/features.py:3768-3771 | only a returned receipt succeeds a job, and only before lease end and deadline |
| WorkerLoop.ReportKeeps | recorder_next/features.py:3748-3775 | a report, with anything happening between its two transactions, keeps the ledger sound |
| WorkerLoop.ReportResult | recorder_next/features.py:3748-3775 | the reporting half of a turn on the store is the specified report |
| WorkerLoop.RunOnce | recorder_next/features.py:3702-3775 | a whole turn is a claim and, if a job was claimed, the report of its handler |
| WorkerStore.Store.EnqueueWorkerJob | recorder_next/features.py:1272-1335 | the method commits the enqueue step or raises its error and keeps the invariant; when it returns and what row it adds are told from the arguments and rows |
| WorkerStore.Store.ClaimWorkerJob | recorder_next/features.py:1371-1447 | the sweeping loops and the pick commit the claim step for the rows they met; every row after it, and the job handed out, are told from the tables before |
| WorkerStore.Store.RenewWorkerLease | recorder_next/features.py:1449-1468 | on the tables before and after: a live holder before the deadline gets true and the clamped expiry, and every other field and table is unchanged; otherwise false, or the end of an overdue job |
| WorkerStore.Store.AssertWorkerEffect | recorder_next/features.py:1488-1514 | on the tables before and after: the authority is given exactly to a live claim of the stage and turn before the deadline |
| WorkerStore.Store.CompleteWorkerJob | recorder_next/features.py:1545-1592 | on the tables before and after: success, repetition, lateness and each refusal are told apart |
| WorkerStore.Store.FailWorkerJob | recorder_next/features.py:1594-1643 | on the tables before and after: requeue with its delay, the end with all its consequences, or refusal |
| WorkerStore.Store.RecoverWorkerJobs | recorder_next/features.py:1645-1666 | the loop recovers exactly the expired leases, each as its own row says, and counts requeued and failed rows |
| WorkerStore.SweepRows | recorder_next/features.py:1378-1422 | a sweep walks exactly the rows its query selects, each once, and commits or raises as specified |
| WorkerStore.PickRow | recorder_next/features.py:1423-1428 | the loop returns an eligible job that no eligible job precedes, if there is one |
| PublicationSafety.RecoverIsSafe | recorder_next/features.py:979-1107 | recovery of one receipt, stopped after any effect, keeps safety and removes only an unreferenced file of the receipt's content |
| PublicationSafety.RecoverAllIsSafe | recorder_next/features.py:1024-1107 | so does a whole recovery pass with any faults |
| PublicationSafety.PublishIsSafe | recorder_next/features.py:1855-1936 | every durable state of a publication is safe and keeps all earlier rows, whatever fails in it |
| PublicationSafety.RunIsSafe | recorder_next/features.py:1855-1936 | in any run of publications and recoveries crashing anywhere, each file at an update path is owned by a row of its digest and size or covered by an unfinished receipt, rows are backed, channels newest, versions unique, and nothing published is lost |
| PublicationSafety.ReachableIsSafe | recorder_next/features.py:1855-1936 | so every state reachable from an empty store is safe |
| PublicationSafety.FinishedReceipts | recorder_next/features.py:1006-1022 | a finished receipt's path holds no unowned file of its content |
| PublicationSafety.StaleGenerationChangesNothing | recorder_next/features.py:1890-1909 | a stale or missing expected generation, or one named for a channel that has none, changes no row and no channel; it returns only for a manifest that is published already |
| PublicationSafety.PublishedIsCurrent | recorder_next/features.py:1890-1930 | a publication that returns has its row, its file and, if it is new, the channel's newest generation in place |
| PublicationOutcomes.WhenPublicationReturns | recorder_next/features.py:1855-1936 | a publication returns exactly if the same update is published with its file there, or the row is new, the expected generation is the current one, the generation is larger, the version code unused, the target absent or this content, and no fault meets it; the end state in both cases |
| PublicationOutcomes.NextGenerationIsPublished | recorder_next/features.py:1903-1930 | a channel can always be moved on: its next generation, rightly expected, is published |
| PublicationOutcomes.WhyPublicationRaises | recorder_next/features.py:1890-1936 | with clean cleanup it raises a conflict, unless a fault met an admissible update |
| PublicationOutcomes.WhatRecoveryDecides | recorder_next/features.py:979-1107 | recovery leaves a live lease alone; otherwise it leases the receipt for five minutes, removes the file exactly if it is an unreferenced copy, and closes, blocks or requeues the receipt as rows, file and fault say |
| PublicationSafety.FailedPublishKeepsCatalogue | recorder_next/features.py:1855-1936 | one that raises has changed no row and no channel at any point |
| PublicationSafety.FailedPublishIsUndone | recorder_next/features.py:1931-1936 | and, when cleanup meets no fault, leaves the disk as it was and its receipt closed |
| PublicationSafety.RecoveryCollectsEverything | recorder_next/features.py:1024-1107 | after any crashes, once leases have run out, one fault-free pass over the unfinished receipts leaves only files that a published row owns |
| PublicationStore.UpdateStore.PublishUpdate | recorder_next/features.py:1760-1936 | the method, crashing when its effect budget is spent, leaves exactly the specified durable state; if it survives, it returns exactly for published or admissible undisturbed updates, with the channel advanced |
| PublicationStore.UpdateStore.RecoverCleanupReceipts | recorder_next/features.py:1024-1107 | so does the recovery loop |
| PublicationStore.UpdateStore.RecoverReceipt | recorder_next/features.py:979-1107 | so does the recovery of one receipt |
| PublicationStore.UpdateStore.LookUpReference | recorder_next/features.py:920-973 | the row scan decides whether a path is owned, claimed by other content, or unowned |
| HistoryPages.PageIsGood | recorder_next/features.py:2179-2331 | a returned page is within the item and byte limits, holds the next filtered turns in order, and has_more comes with a cursor that lies further |
| HistoryPages.WalkIsComplete | recorder_next/features.py:2179-2331 | following the cursor to the end returns exactly the filtered turns in order, each once, and ends; the filter is told from the turns by HistoryOutcomes.WalkHoldsExactly |
| HistoryPages.WalkFailsOnlyWithPage | recorder_next/features.py:2179-2331 | a walk fails exactly when a page it asks for raises |
| HistoryPages.PageRaises | recorder_next/features.py:2219-2331 | a page raises exactly when a row blocks it before anything is accepted (it exceeds the part budget, or is wanted and does not fit), or no cut of the finished envelope fits |
| HistoryPages.CrowdedTurnBlocksHistory | recorder_next/features.py:2244-2262 | a turn of 2049 parts makes the first page raise, and with it the walk, although the page behind it returns |
| HistoryPages.TrimFailsIff | recorder_next/features.py:2321-2330 | trimming fails exactly when neither the page nor any shorter cut of it fits |
| HistoryOutcomes.WalkHoldsExactly | recorder_next/features.py:2223-2278 | a complete walk holds exactly the turns of the user, project, archive state, time and input type asked for, each once, by accepted_seq and then turn id |
| HistoryOutcomes.PageHoldsExactly | recorder_next/features.py:2223-2331 | a page holds exactly such turns after its cursor and up to the next one |
| HistoryOutcomes.TypeIsTold | recorder_next/features.py:2269-2278 | the input type, told from the transcript and the kinds of the parts |
| HistoryOutcomes.WhenTurnFits | recorder_next/features.py:2281-2311 | a turn fits exactly when each text fits what the readable ones before it leave, and transcript or joined texts and answer fit |
| HistoryOutcomes.WhenRowIsAdmitted | recorder_next/features.py:2281-2311 | a row joins the page exactly when its texts fit what the page leaves of 16 MiB, and the page with it still fits them |
| HistoryOutcomes.WhyPageEnds | recorder_next/features.py:2211-2331 | a page that has more is full, at a scanning limit, before a row that does not fit, or had to be trimmed |
| HistoryOutcomes.TrimKeepsMost | recorder_next/features.py:2321-2330 | trimming keeps the longest cut that fits |
| HistoryPages.ScanFailsIffBlocked | recorder_next/features.py:2244-2305 | a scan without items raises exactly at a row that blocks it |
| HistoryReader.ReadPage | recorder_next/features.py:2179-2331 | the batched loops and the trimming loop return the specified page, which holds exactly the turns asked for between its two cursors |
| HistoryReader.ScanTurns | recorder_next/features.py:2211-2311 | reading in batches ends where the row-at-a-time scan ends |
| HistoryReader.TypeOfTurn | recorder_next/features.py:2269-2278 | the input type found by the loop over parts is the one told from transcript and parts |
| DiagnosticsExport.ExportPage | recorder_next/features.py:3370-3480 | the loop over fetched rows builds the specified page |
| DiagnosticsExport.PageSound | recorder_next/features.py:3389-3480 | a returned page has at most limit rows and byte_limit bytes, is the first part of what remains, and a truncated one carries its last key |
| DiagnosticsExport.WhatExportReturns | recorder_next/features.py:3389-3480 | the page is the longest that row and byte limits allow; it raises exactly if its first row or the finished page does not fit |
| DiagnosticsExport.WhyPageStops | recorder_next/features.py:3440-3476 | a truncated page stops only at the row limit or before a row that does not fit its bytes |
| DiagnosticsExport.WalkListsEverything | recorder_next/features.py:3389-3480 | unless an event and a bundle with one id were deleted at one instant, the pages list every live event, bundle and tombstone exactly once, in order |
| DiagnosticsExport.WalkHoldsExactly | recorder_next/features.py:3389-3480 | told from the tables: the rows still kept, each once, by time, then kind, then id |
| DiagnosticsExport.WhenKeysAreDistinct | recorder_next/schema.sql:534-601 | the keys of the three tables make the export keys distinct exactly when no two kept tombstones collide |
| DiagnosticsExport.WhenExportIsComplete | recorder_next/features.py:3389-3480 | told from the tables: one row at a time, the walk is complete exactly when no two kept tombstones collide |
| DiagnosticsExport.CompleteIffDistinct | recorder_next/features.py:3389-3480 | one row at a time, the walk is complete exactly when no two rows share a key |
| DiagnosticsExport.TiesAreLost | recorder_next/features.py:3389-3480 | otherwise it lists fewer rows than there are |
| DiagnosticsExport.TombstonesCanCollide | recorder_next/features.py:3389-3480 | two tombstones of which the export shows one |
| EavesdropSafety.OpKeeps | recorder_next/features.py:2512-2964 | every operation keeps the session invariant and only lets a session grow |
| EavesdropSafety.AppendKeeps | recorder_next/features.py:2836-2906 | an upload keeps sequence, transcript, decisions and frozen requests in step |
| EavesdropSafety.CommitKeeps | recorder_next/features.py:2680-2767 | so does a committed result |
| EavesdropSafety.MarkKeeps | recorder_next/features.py:2769-2834 | so does a mark |
| EavesdropSafety.SessionInEveryRun | recorder_next/features.py:2836-2906 | in every run: next_sequence counts the segments, which are 0..n-1 with distinct client ids and one decision each; the accumulated transcript is the newline join of the non-empty ones; forwarding is what makes bindings and jobs |
| EavesdropSafety.RequestStaysFrozen | recorder_next/features.py:2615-2629 | the request frozen at routing equals the conversation rebuilt in any later state |
| EavesdropSafety.DecisionsStay | recorder_next/features.py:2823-2829 | outcomes never change and settled decisions are never touched again |
| EavesdropSafety.SilentStaysSilent | recorder_next/features.py:2579-2587 | with Hermes disabled no run creates a binding, a job or a forwarded or delivered decision, whatever the agent answers |
| EavesdropSafety.HowDeliveryHappens | recorder_next/features.py:2728-2767 | delivery happens only to a queued, forwarded segment of a session that has not expired, by its bound run under authority or by a mark with a receipt |
| EavesdropSafety.OneResultPerSegment | recorder_next/features.py:2700-2767 | after a committed result, whatever commits to the segment later in any run has the same run, content hash and message id, and changes nothing |
| EavesdropOutcomes.WhenRouted | recorder_next/features.py:2574-2646 | an undecided segment is forwarded with binding and job exactly if the agent says FORWARD_DEFAULT, kept silent without either exactly if it says STORE_SILENT or Hermes is disabled, with the agent's reason; any other answer raises |
| EavesdropOutcomes.AgentDecides | recorder_next/features.py:2574-2646 | in any run with Hermes enabled a segment has a binding and a job exactly if the agent answered its upload with FORWARD_DEFAULT, and neither exactly if it answered STORE_SILENT |
| EavesdropOutcomes.NewDecisionIsAnswered | recorder_next/features.py:2836-2906 | no operation but the upload of a segment makes its decision |
| EavesdropOutcomes.WhenAppended | recorder_next/features.py:2836-2906 | an upload commits exactly for the owner of an active session in time, as a repetition of the row found or as the next segment with a routable answer; what it writes |
| EavesdropOutcomes.WhenMoved | recorder_next/features.py:2531-2559 | which states each move leads from and to; a session past its time expires instead |
| EavesdropOutcomes.WhenStopped | recorder_next/features.py:2561-2572 | stopping takes the owner's session to STOPPED, or leaves the end it has reached |
| EavesdropOutcomes.WhenCommitted | recorder_next/features.py:2680-2767 | a result commits exactly under authority, for the bound run of a queued segment in an open session, or as its own repetition; the decision, receipt and reply it writes |
| EavesdropOutcomes.WhenMarked | recorder_next/features.py:2769-2834 | a mark commits exactly if it is proper and agrees with a settled decision; what it comes to in an expired session |
| EavesdropOutcomes.WhenBound | recorder_next/store.py:2953-2971 | a run is bound exactly under authority, to a binding without another run and a run without another binding; repeating it changes nothing |
| EavesdropOutcomes.WhenWorkerGivesUp | recorder_next/features.py:1168-1173 | giving up on a segment's job fails its decision exactly if that is still queued |
| EavesdropOutcomes.WhenReplied | recorder_next/features.py:2908-2940 | a reply is recorded exactly in an active session in time that wants replies, once per segment |
| EavesdropOutcomes.WhenSubmitted | recorder_next/service.py:526-569 | a segment is submitted exactly if it waits in an active session under the queued digest and there is speech in it and before it |
| EavesdropOutcomes.WhenMarkedInstead | recorder_next/service.py:534-560 | it is marked instead exactly without speech, or in a session no longer active |
| EavesdropSafety.WhoExpiresSessions | recorder_next/features.py:2872-2874 | a session becomes EXPIRED exactly when it lapsed and a read, move, recovery or mark commits; an upload or reply that raises leaves no mark |
| EavesdropSafety.SubmitsTheConversation | recorder_next/service.py:526-569 | what processing submits is the rebuilt conversation, not blank, of an active session with Hermes enabled |
| EavesdropSafety.WhenProcessingRefuses | recorder_next/service.py:534-553 | processing refuses exactly an unknown segment or one whose digest is not the queued one |
| EavesdropSafety.PlannedMarksTake | recorder_next/service.py:539-560 | the marks processing makes instead of submitting take effect |
| EavesdropStore.BuildConversation | recorder_next/features.py:2615-2623 | the join loop over history rows is the conversation |
| EavesdropStore.FindDuplicate | recorder_next/features.py:2875 | the lookup returns a row with the same sequence or client id exactly if there is one |
| EavesdropStore.RouteRow | recorder_next/features.py:2574-2646 | routing commits exactly for a routable answer, with the decision, binding and job that answer asks for |
| EavesdropStore.AppendToRow | recorder_next/features.py:2863-2906 | the append transaction commits exactly what an upload may commit, and the decision is the agent's |
| EavesdropStore.Sessions.StartEavesdrop | recorder_next/features.py:2462-2510 | it returns exactly for a duration within a day and an id and key that are new or belong to the same request; starting again gives the first session and never changes it; keys stay unique |
| EavesdropStore.Sessions.AppendEavesdropSegment | recorder_next/features.py:2836-2906 | an upload settles on its session alone, or raises and changes nothing; on the rows before and after, the agent's answer decides binding, job and decision |
| EavesdropStore.Sessions.CommitEavesdropResult | recorder_next/features.py:2680-2767 | a result settles on its session alone, exactly when it may, with its decision, receipt and reply |
| EavesdropStore.Sessions.MarkEavesdropDecision | recorder_next/features.py:2769-2834 | so does a mark |
| EavesdropStore.Sessions.RunOperation | recorder_next/features.py:2512-2572 | so does each remaining operation |
| EavesdropStore.Sessions.RecoverEavesdrop | recorder_next/features.py:2960-2964 | recovery expires exactly the lapsed sessions that are not stopped and returns their number |
| WavFormat.ParseOfEncoding | recorder_next/media.py:105-140 | parsing the encoding of any chunk list gives that list |
| WavFormat.EncodingOfParse | recorder_next/media.py:105-140 | encoding what parses gives back the bytes |
| WavFormat.EncodesIffParses | recorder_next/media.py:100-140 | a file is the encoding of a chunk list exactly when its header is good and it parses to that list |
| WavFormat.FramesAreUnique | recorder_next/media.py:152 | a recording has one frame count |
| WavFormat.OneFormatOnly | recorder_next/media.py:143-150 | the profile accepts one format chunk, byte for byte, with or without its empty extension |
| WavFormat.CanonicalFiles | recorder_next/media.py:85-173 | a one-format-one-data file of n ≥ 1 frames exists exactly when its size fits 32 bits, and is a recording of n frames |
| WavReaders.ValidateWav | recorder_next/media.py:85-173 | the buffer reader accepts exactly the recordings that fit the request, and reports frames, duration and bytes |
| WavReaders.WavStream.InspectBody | recorder_next/media.py:238-304 | the streaming loop accepts exactly the same bytes, and what it hashed is the whole file |
| WavReaders.WavStream.Take | recorder_next/media.py:209-223 | short reads are joined to exactly the bytes asked for, each hashed once |
| WavReaders.WavStream.Discard | recorder_next/media.py:225-236 | skipped bytes are hashed once as well |
| WavReaders.InspectWavFile | recorder_next/media.py:176-318 | the descriptor is left where it was, and a wrong expected size is refused |
| WavReaders.JudgedIsUnique | recorder_next/media.py:85-304 | two readers that judge right give one answer |
| WavReaders.ReadersAgree | recorder_next/media.py:85-304 | both readers give one answer for one file, metadata and digest input included |
| ProviderChain.WinnerIsFirstToAnswer | recorder_next/adapters.py:3178-3227 | a result comes from target i at attempt a only after every earlier target failed retryably exactly retries + 1 times, in order, and its metadata say i and a |
| ProviderChain.EveryCallIsLicensed | recorder_next/adapters.py:3181-3251 | no call starts at or after the deadline or is given time beyond it, and none follows an ineligible failure |
| ProviderChain.GenerationsIncrease | recorder_next/adapters.py:3191 | generation numbers strictly increase along a run |
| ProviderChain.RetryableMeansExhausted | recorder_next/adapters.py:3264-3271 | a failure is retryable exactly when all targets were tried in full, and then carries one retryable status per target in order |
| ProviderChain.CallsInOrder | recorder_next/adapters.py:3178-3181 | how often each target has been called when the run stands at a slot |
| ProviderChain.WhichAnswersMoveOn | recorder_next/adapters.py:3228-3263 | another call follows exactly a transport exception, or in time a failure that is not a hopeless client error and is transient or unavailable |
| ProviderChain.WhichCodesAreRetried | recorder_next/adapters.py:1579-1580 | the HTTP statuses that may be retried, 429 among them |
| ProviderChain.HowRunsEnd | recorder_next/adapters.py:3174-3271 | a good answer in time is returned, any other that does not move on ends the run with its error, and otherwise the run ends exhausted or out of time |
| ProviderChain.Chain.Execute | recorder_next/adapters.py:3174-3271 | the nested loops return an outcome that the log of calls explains |
| ProviderChain.Chain.Attempt | recorder_next/adapters.py:3182-3190 | one turn checks the clock twice before it calls |
| ProviderChain.Judge | recorder_next/adapters.py:3203-3263 | the handlers go on exactly after eligible failures and transport exceptions, and end with the specified statuses |
| FallbackGraph.CheckChain | recorder_next/adapters.py:3135-3145 | the constructor accepts exactly the graphs without dangling edges and cycles |
| FallbackGraph.CheckConfiguration | recorder_next/config.py:901-913 | the configuration accepts exactly the same graphs |
| FallbackGraph.RepeatIsCycle | recorder_next/adapters.py:3140-3141 | a walk that meets an alias again has found a cycle |
| FallbackGraph.RootedDecides | recorder_next/config.py:906-913 | if every walk ends the graph has neither cycles nor dangling edges |
| SchemaProjection.ProjectionIsDeclared | recorder_next/http_contract.py:989-1038 | for every schema and value, objects met by an object schema keep only declared or additionally allowed keys, at every depth |
| SchemaProjection.ProjectionIsIdentity | recorder_next/http_contract.py:915-1038 | projection is the identity on every accepted value of schemas with explicit additionalProperties and unambiguous oneOf lists |
| SchemaProjection.ChosenIsValid | recorder_next/http_contract.py:995-1004 | in an unambiguous list the projector picks the alternative the validator accepted |
| SchemaProjection.WhenOneOfAccepts | recorder_next/http_contract.py:915-942 | a oneOf accepts what exactly one of its alternatives accepts |
| SchemaProjection.WhenAnyOfAccepts | recorder_next/http_contract.py:942-1012 | an anyOf accepts exactly what the projector finds an alternative for |
| SchemaProjection.WhenListedTextIsAccepted | recorder_next/http_contract.py:899-960 | a text from a list is accepted exactly if it is listed |
| SchemaProjection.WhenScalarIsAccepted | recorder_next/http_contract.py:899-960 | text, numbers and flags are told apart |
| SchemaProjection.WhenTurnPayloadIsAccepted | recorder_next/http_contract.py:661-667 | a turn payload is one with a turn, perhaps its user and artifact, and nothing else |
| SchemaProjection.WhenChoiceLosesNothing | recorder_next/http_contract.py:995-1004 | a oneOf of flat objects keeps an object exactly when the first alternative it qualifies for declares all its keys |
| SchemaProjection.WhenOpenObjectLosesNothing | recorder_next/http_contract.py:1019-1033 | without additionalProperties an accepted object survives exactly when it has no undeclared key |
| SchemaProjection.WhenWorkerPayloadSurvives | recorder_next/http_contract.py:661-667 | an accepted worker payload survives exactly when it does not carry both a turn and a session |
| SchemaProjection.HistoryPayloadIsCut | recorder_next/http_contract.py:661-667 | every history payload is accepted and comes back with its turn alone |
| SchemaProjection.EventPayloadSurvives | recorder_next/http_contract.py:668-674 | accepted event payloads always survive |
| HermesWire.SkeletonPlusText | recorder_next/hermes_wire.py:46-50 | a serialised body is as long as its skeleton plus the escaped length of its string values |
| HermesWire.SkeletonHasNoText | recorder_next/hermes_wire.py:107-116 | the skeleton holds no text at all |
| HermesWire.WhatImageDeclares | recorder_next/hermes_wire.py:76-90 | the size of an image is the first count it declares, or what its own data URL holds |
| HermesWire.WhatCharactersCost | recorder_next/hermes_wire.py:46-50 | the bytes each character of a string takes |
| HermesWire.InferredChargeIsExact | recorder_next/hermes_wire.py:83-90 | the charge for the bytes inferred from a payload is the payload's length exactly when it is properly padded |
| HermesWire.ChargeOfSymbols | recorder_next/hermes_wire.py:119-120 | what the charge is for any number of symbols |
| HermesWire.ImagesArePaidFor | recorder_next/hermes_wire.py:93-104 | the charges of honest images cover their payloads wherever they are nested |
| HermesWire.WhenEstimateBounds | recorder_next/hermes_wire.py:123-143 | the estimate bounds the body exactly when reserves and charges pay for its text |
| HermesWire.NestedImageIsNotPaidFor | recorder_next/hermes_wire.py:76-104 | the payload of an image held as a nested object is paid for by the reserves alone |
| HermesWire.LeftoverSymbolIsNotPaidFor | recorder_next/hermes_wire.py:83-120 | with one leftover symbol, reserves that cover exactly the other text miss the body by one byte |
| HermesWire.EstimateIsBound | recorder_next/hermes_wire.py:123-143 | with honest images it is a bound as soon as all other text fits the two reserves |
| HttpFraming.HeaderReader.RecordHeader | recorder_next/http.py:75-89 | the fields always say what a look at the whole stream would say |
| HttpFraming.ReadHeader | recorder_next/http.py:75-89 | completion, count and rejection are those of the stream, whatever the reads |
| HttpFraming.SplitsAgree | recorder_next/http.py:75-107 | two ways of cutting one stream into reads have one result |
| HttpFraming.FindFromTail | recorder_next/http.py:78-83 | only the last three bytes of a stream without a marker can begin one |
| HttpFraming.ValidatedContentLength | recorder_next/http.py:422-444 | a length is accepted exactly when it is absent or a single number within the limit; too large and malformed are told apart |
| HttpFraming.TooWide | recorder_next/http.py:437-440 | a numeral with more digits than the limit is over it |
| Lifecycle.SlotsAreConserved | recorder_next/http.py:190-231 | in every interleaving free slots and live handlers add up, the operation count is the number of operations, and accept times do not outlive connections |
| Lifecycle.EndNeverTruncates | recorder_next/service.py:253-256 | the floor at zero never hides a missing begin |
| Lifecycle.SlotReturnFits | recorder_next/http.py:215-231 | the semaphore is never released beyond its bound |
| Lifecycle.ActiveFallsAfterShutdown | recorder_next/service.py:247-256 | after a shutdown request the count never rises |
| Lifecycle.QuietForever | recorder_next/service.py:289-307 | once it is zero it stays zero and nothing is admitted |
| Lifecycle.WhenLabelLeavesStopped | recorder_next/service.py:437-442 | the label leaves STOPPED exactly at a further shutdown request |
| Lifecycle.WhenMarkedStopped | recorder_next/service.py:289-294 | a service is marked STOPPED exactly if it was, or is idle after a shutdown request without background threads |
| Lifecycle.IdleServiceStops | recorder_next/service.py:289-307 | once an idle service has been asked to stop, whatever happens next, one more look stops it |
| Lifecycle.WhenConnectionIsTaken | recorder_next/http.py:190-213 | a connection is served exactly if a handler slot is free |
| Lifecycle.ReleasedExactlyOnce | recorder_next/http.py:314-373 | every slot taken and every operation begun by a connection is given back exactly once on every path |
| Lifecycle.Service.BeginOperation | recorder_next/service.py:247-251 | the method is the begin step of a request and of a task |
| Lifecycle.Service.EndOperation | recorder_next/service.py:253-256 | the method is the end step of each of them |
| Lifecycle.Service.AdmitHttp | recorder_next/service.py:258-279 | admission is the begin step followed by the outcome of the checks; a refused request leaves no operation behind |
| Lifecycle.Service.MarkStoppedIfIdle | recorder_next/service.py:289-294 | the method is the marking step, and marks exactly an idle service that was asked to stop |
| Lifecycle.Service.RequestShutdown | recorder_next/service.py:437-442 | the method is the shutdown step: draining, and asked to stop |
| ByteRange.RangeIsInside | recorder_next/features.py:1955-1980 | whatever the header says, an accepted range lies inside the artifact |
| ByteRange.SuffixRange | recorder_next/features.py:1964-1970 | a suffix of n selects the last min(n, size) bytes |
| ByteRange.FirstLastRange | recorder_next/features.py:1971-1980 | a first-last range is satisfied exactly when it begins inside and is not reversed |
| ByteRange.WhenRangeIsInvalid | recorder_next/features.py:1957-1977 | a header is invalid exactly if it is not one bytes range of a suffix length above zero, or of a first position with an optional last one |
| ByteRange.IterChunks | recorder_next/features.py:89-106 | for every slab size and every short read the chunks are the slice, or the file is too short for it |
| ByteRange.DeliverRange | recorder_next/features.py:2031-2042 | the delivered bytes are the range and their number is Content-Length |
| Text.WideIsLarge | recorder_next/http.py:437-440 | a numeral without leading zeros is at least the power of ten of its width |
| Text.TrimKeepsValue | recorder_next/http.py:437 | removing leading zeros keeps the value |

## Left out

- Validation of identifiers, error codes and labels by regular expressions, and the HTTP status codes they lead to.
- Credentials, registered devices and principals: the owner check is kept, the device check is not.
- The columns updated_at, failure texts and router queue of the tables, and the events and speech artifacts that a final outcome creates; the model sets the outcome if there is none.
- The heartbeat thread of a worker (its renewals are steps of the ledger like any other) and the scheduler.
- Symbolic links, permissions and directory descriptors of managed files; a path holds a file or not. Cleanup receipts of attachments and diagnostics bundles.
- Several processes on one database: the write lock excludes publication and recovery from each other within one process, which is what the code assumes. A failure of the transaction that closes a cleanup receipt is modelled as a crash.
- OSError while a WAV file is read, and a file that changes during inspection: the model's file is fixed.
- Stripping and lowering of MIME types: both WAV readers use one arbitrary predicate for it.
- Provider adapters, the shape checks of their results (an answer is good or bad) and stripping of transcripts.
- `$ref` in schemas: schemas are finite trees, with references already replaced. An empty `oneOf` list, on which the projector raises.
- Python's limit on the digits of an integer in a byte range, non-string keys in JSON, and lone surrogates, which make serialisation raise.
- Reading of deadlines while a header or body is read, and the waiting in `wait_for_drain`.
- HermesWire.SkeletonPlusText: keys are listed in serialisation order instead of being sorted by the model.
- Lifecycle.ReleasedExactlyOnce: the try and finally blocks are program points of a state machine, not statements; that the finally blocks run is Python's part.
- EavesdropStore.Sessions.RunOperation: moving, stopping, reading, binding a run and recording a reply have no loop, so one method runs their specification.
- Ties between jobs due and created at one time, which the code orders by job id: any of them may be picked.
- PublicationStore.UpdateStore.LookUpReference: the code answers from the first matching row its queries return, the model from any; the two agree in safe states, where a path has one row at most. Rows of other kinds of files are not part of the model.
- SchemaProjection.ProjectionIsDeclared: a value of another type than its schema's, and one that no `anyOf` alternative accepts, pass through unprojected, as in the code; the lemma says nothing about what such a value holds.
- Lifecycle.Service.AdmitHttp: what the admission checks look at is one arbitrary answer.
