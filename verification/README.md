# Telegram control plane: verified model

A Dafny model of the parts of the control plane in which several operations have to agree: what
a streaming test sends while its producers run side by side, what the Gateway serves while
providers are edited, what two payout migrations do to a ledger and what their downgrade gives
back, what a paginated stream returns, how update jobs share a lock and account for their time,
what the login limiter lets through, what the API description says about authentication, and how
masked secrets survive a round trip through a browser.

| file | models |
|---|---|
| `Common.dfy` | options, prefixes, suffixes, lists without repeats |
| `Text.dfy` | stripping, joining and decimal rendering of text |
| `ChatTest.dfy` | one diagnostic chat: stream, fallback, limit, terminal |
| `StreamFanIn.dfy` | producers, bounded queue, diagnostic slots and the consumer of a streaming test |
| `GatewayRuntime.dfy` | the manager of the Gateway subprocess, the processes themselves, failures and cancellation |
| `GatewayAgreement.dfy` | provider and proxy edits, candidate push, commit, compensation |
| `GatewayContents.dfy` | what a snapshot contains, row by row, after a push and over runs |
| `GatewayProgress.dfy` | when a reconcile succeeds, what it leaves behind, and that undisturbed edits go through |
| `ModelRefresh.dfy` | merging a fetched model list under concurrent edits |
| `OrderedQuery.dfy` | SELECT … WHERE … ORDER BY … LIMIT over a table in any order |
| `TraceTables.dfy` | batched grouping of spans and actions, and the three sets of counters |
| `MessageStream.dfy` | the keyset-paginated stream with a derived filter |
| `PayoutMigrations.dfy` | migrations 0038 and 0039, upward |
| `PayoutContents.dfy` | what both upgrades write, read off the rows' JSON |
| `PayoutDowngrade.dfy` | the downgrade of 0039 |
| `UpdaterJob.dfy` | job updates, step timings, bounded logs |
| `UpdaterContents.dfy` | what one call, one line and one progress line mean for a job |
| `UpdaterThreads.dfy` | job threads and the apply lock |
| `UpdaterLiveness.dfy` | who gets the lock, and that every job can still end |
| `RateLimiter.dfy` | the in-process login limiter and its eviction |
| `AuthReachability.dfy` | the dependency search and the security of the API description |
| `TokenMasking.dfy` | the image plugin's masked token list |
| `TokenContents.dfy` | what reading, showing and saving do with each single token |
| `PassthroughOrder.dfy` | the direct-passthrough order, the dispatch that follows it and its preview |

`dafny verify dfyconfig.toml` checks everything. Automatic induction is
switched off (`{:induction false}`) where a proof is written out.

## Where the code does not do what it is for

Each of these comes with a concrete failing input and with the exact condition under which the
code does meet its purpose.

- **The Gateway can serve a configuration that is not the committed one**, in two windows.
  A request is cancelled during the configuration PUT, after the subprocess has taken the new
  snapshot: the manager still holds the old fingerprint and the state `ready`, compensation
  compares fingerprints and sends nothing, and recoveries do the same until one of them fails
  (`GatewayAgreement.CutOffExactly`, `RecoveryRepairsExactly`, `CutOffWitness`).
  Or a subprocess exits, and a reconcile starts a second one before the first one's watcher has
  the manager's lock: the watcher then drops the handle of the second. Nothing stops that process
  as long as no Gateway provider is committed, whether because the commit of the first one fails
  (`OrphanedExactly`, `OrphanWitness`) or because the last one is deleted, with every step
  succeeding (`OrphanedEditExactly`, `DeletedKeyWitness`, `OrphanPersists`). Outside both windows
  agreement holds over every run (`AgreementOverRuns`).
- **The downgrade of 0039 can abort.** It rewrites keys row by row while the account-scoped
  unique index still stands, in the order of a SELECT without ORDER BY. When a key has been paid
  again after an earlier downgrade and upgrade, the younger row renders to the older row's present
  key. The loop fails if it meets the younger row first (`PayoutDowngrade.Tables.RestoreGlobalKeys`,
  `RenderedKeyWitness`); in id order it never fails (`DowngradeInIdOrder`), and a first downgrade
  fails in no order (`FirstDowngradeIsSafe`).
- **A key paid before a downgrade is not recognised after it.** Account and original key find no
  row any more, in the ledger or among the tickets (`PayoutDowngrade.RecognisedAfterwards`).
- **A token that is the redaction mark is lost when a list is saved back**
  (`TokenMasking.MarkIsLost`, `RoundTripExactly`).
- **A refused reorder is not undone.** Each key's priority is committed on its own, so a refusal
  keeps the priorities written before it (`PassthroughOrder.RefusalChangesTable`,
  `RefusedReorder`).
- **The preview of the dispatch is wrong after a reorder.** It reads priority 0, which a reorder
  gives its first key, as 1000 (`PassthroughOrder.PreviewAgrees`, `PreviewContradictsReorder`).

## Assumptions

- Clocks do not run backwards; times are exact reals, so floating-point rounding is not modelled.
- One database snapshot holds for all pages of one stream request.
- Recording the usage of a diagnostic chat swallows its own failures, as `_emit_usage` does
  (`backend/app/services/llm_runtime.py:136-164`), so every producer reaches its terminal.
- Spans are written by `record_span` alone (`backend/app/services/event_trace.py:131-163`).
- SHA-256 is a function. The 32-digit prefix tells apart the payout keys concerned
  (`PayoutDowngrade.Distinguishes`, `Tells`); of the 10-digit token ids nothing is assumed, their
  being different is part of `TokenMasking.RoundTripExactly`.
- `PayoutDowngrade.IdOrderIsSafe`: rows get their keys when they are inserted, and no key of the
  application starts with `legacy_` (`Grown`).
- Marking the control plane degraded succeeds when compensation calls it.
- Saving a job to disk raises nothing but the operating-system errors the code swallows.
- In a diagnostic chat a time-out strikes at a chunk boundary or during the completion request.
- Collation of trace ids is some total order; keys are compared by code point.

## Model

| member | source | states |
|---|---|---|
| ChatTest.ReadStream | backend/app/api/commands.py:2143-2177 | The reading loop stops after all chunks, or before the first delta that pushes the total over the limit; events, text and flags describe exactly the chunks read. |
| ChatTest.RunOne | backend/app/api/commands.py:2111-2361 | Emits start, deltas, one terminal. The deltas are those of the chunks read, and their total keeps within max(16384, 16 × max_tokens). It ends in `done` if and only if the stream reached a final chunk or the completion replaced it; a streamed answer is the stripped concatenation of the deltas sent, a replaced one follows only blank deltas and is itself within the limit. |
| ChatTest.SaysSomething | backend/app/api/commands.py:2179 | True exactly when some part has a non-space character. |
| ChatTest.ReadsExactlyUnique | backend/app/api/commands.py:2164-2168 | The limit determines how many chunks are read: the number `RunOne` reports is the only possible one. |
| ChatTest.WhenItSucceeds | backend/app/api/commands.py:2010-2028 | The exact condition under which a chat ends in `done`, in terms of the chunks, the error and the second answer: an unbroken stream needs a final chunk; a broken one must have said only blanks and must only have refused streaming (not implemented, capability mismatch, status 405, 406, 415, 501, or 400/422 with a message that refuses streaming), and then needs its final chunk or a second answer within the limit. |
| ChatTest.TextThenBreak | backend/app/api/commands.py:2179-2180 | A stream that breaks after real text fails, whatever a second request would have answered. |
| StreamFanIn.TakeFollowsScript | backend/app/api/commands.py:2370-2374 | The event taken from the queue is the next one its task still owes the client. |
| StreamFanIn.TakeCounts | backend/app/api/commands.py:2370-2374 | Taking an event lowers the number of unfinished tasks exactly when the event is a terminal. |
| StreamFanIn.InitInv | backend/app/api/commands.py:2367-2368 | The state in which the consumer starts to wait satisfies the invariant. |
| StreamFanIn.StepInv | backend/app/api/commands.py:2106-2109 | Every step of a producer, the consumer or another request keeps the invariant: per task, output and queue together are what the producer has put; `remaining` counts unfinished tasks; queue and slots stay within capacity. |
| StreamFanIn.RunInv | backend/app/api/commands.py:2363-2374 | The invariant holds after every interleaving. |
| StreamFanIn.ExitIsComplete | backend/app/api/commands.py:2369-2374 | When the loop ends, each task's output is its whole script, the queue is empty and no producer is in the middle of a put. |
| StreamFanIn.OutputIsPrefix | backend/app/api/commands.py:2370-2374 | At any moment the output of a task is a prefix of its script: nothing lost, reordered or doubled. |
| StreamFanIn.RemainingCountsOpenTasks | backend/app/api/commands.py:2368-2373 | In every run `remaining` is the number of tasks whose terminal the client has not been given. |
| StreamFanIn.StuckMeansWaiting | backend/app/api/commands.py:2363-2374 | A waiting request without a possible step waits for diagnostic slots that other requests hold, all of them, and only for tasks that have none yet. |
| StreamFanIn.NoDeadlock | backend/app/api/commands.py:2106-2109 | While the consumer waits and other requests do not hold every slot, some step is possible, for every queue and semaphore capacity of at least one. |
| StreamFanIn.StepDecreases | backend/app/api/commands.py:2363-2374 | Every step of the request uses up work; other requests' steps leave it alone. |
| StreamFanIn.RunIsBounded | backend/app/api/commands.py:2363-2374 | No run has more own steps than work. |
| StreamFanIn.EveryRequestEnds | backend/app/api/commands.py:2367-2379 | In any interleaving a request takes at most three steps an event and two a task; out of steps, its loop has ended normally with every task's whole script sent, unless other requests hold every slot just then. |
| StreamFanIn.SlotsAreKept | backend/app/api/commands.py:2106-2109 | In every run the tasks at work and the other requests together keep within the diagnostic slots and the queue within its capacity; a waiting task gets a slot exactly if one is left. |
| StreamFanIn.NoDeadEnd | backend/app/api/commands.py:2363-2379 | From every reachable state the request can still be brought to its end, every script sent whole, if only the other requests give their slots back. |
| GatewayRuntime.ReconcileSound | backend/app/services/gateway_runtime.py:80-112 | `reconcile` keeps the manager's belief about its subprocess right, if and only if it is not cancelled during the PUT of a new snapshot that the subprocess has already taken while the manager was ready. |
| GatewayRuntime.SuccessServes | backend/app/services/gateway_runtime.py:80-112 | A reconcile that returns without `degraded` leaves the socket path serving what was asked for; one that returns `degraded` leaves no process running. |
| GatewayRuntime.MarkDegradedStops | backend/app/services/gateway_runtime.py:186-194 | Marking the control plane degraded stops every process the manager knows of. |
| GatewayRuntime.ProcessStepsSound | backend/app/services/gateway_runtime.py:139-148 | An exit, a late bind of the socket path and a preflight keep the belief right and put no snapshot on the path. |
| GatewayRuntime.NoticeSound | backend/app/services/gateway_runtime.py:339-348 | The watcher of an exited process keeps the belief right if and only if the handle is not that of a running process by then; otherwise that process goes on serving and no stop reaches it. |
| GatewayRuntime.GatewayRuntimeManager.WatchProcess | backend/app/services/gateway_runtime.py:343-348 | The fields after the watcher had the lock: the handle goes, whichever process it is of. |
| GatewayRuntime.GatewayRuntimeManager.constructor | backend/app/services/gateway_runtime.py:60-78 | A fresh manager is sound. |
| GatewayRuntime.GatewayRuntimeManager.StopLocked | backend/app/services/gateway_runtime.py:388-418 | The manager's fields after a stop, cancelled or not, are those of `Stop`. |
| GatewayRuntime.GatewayRuntimeManager.StartLocked | backend/app/services/gateway_runtime.py:196-233 | The fields after a start that works, fails or is cancelled. |
| GatewayRuntime.GatewayRuntimeManager.SyncLocked | backend/app/services/gateway_runtime.py:235-253 | The fields after a synchronisation; an unchanged fingerprint on a ready manager sends nothing. |
| GatewayRuntime.GatewayRuntimeManager.Reconcile | backend/app/services/gateway_runtime.py:80-112 | The object's fields and outcome are those of the function the lemmas are about, for every combination of faults. |
| GatewayProgress.ReadyExactly | backend/app/services/gateway_runtime.py:80-112 | A reconcile ends `ready` exactly if it has a snapshot that is current already, or that a subprocess at hand or a new one takes. |
| GatewayProgress.CancelledExactly | backend/app/services/gateway_runtime.py:80-112 | Exactly which cancellations reach the caller, and when it ends `not_required`. |
| GatewayProgress.ReadyMeans | backend/app/services/gateway_runtime.py:235-253 | After `ready` the manager holds the process that serves the snapshot and remembers it; one revision was used, none if it was current; a running process is kept, a new one is watched. |
| GatewayProgress.NotReadyMeans | backend/app/services/gateway_runtime.py:80-112 | After any other return nothing runs, and the watcher of the process that was stopped reports nothing any more. |
| GatewayProgress.CutStartMeans | backend/app/services/gateway_runtime.py:196-233 | A cancelled start leaves nothing, or a process that is held but not watched. |
| GatewayProgress.FailedStartMeans | backend/app/services/gateway_runtime.py:196-233 | A start that fails leaves nothing running; the socket path is the failed process's if it had bound it. |
| GatewayProgress.PreflightMeans | backend/app/services/gateway_runtime.py:139-148 | A preflight ends with a subprocess running exactly if one ran, started, or was cut off after its start. |
| GatewayProgress.MarkDegradedMeans | backend/app/services/gateway_runtime.py:186-194 | Marking degraded stops the subprocess exactly if a provider is wanted. |
| GatewayProgress.StartBeside | backend/app/services/gateway_runtime.py:196-233 | Beside a process that answers, a new one serves nobody until it binds the socket path; then nobody is served. |
| GatewayAgreement.ProjectionSees | backend/app/services/gateway_runtime.py:255-307 | The snapshot depends on Gateway providers and the proxies they use, and on nothing else of the database. |
| GatewayAgreement.UnchangedFlagFrame | backend/app/api/commands.py:495-522 | Every edit that leaves `gateway_changed` false leaves the snapshot as it is. |
| GatewayAgreement.DirectProviderInvisible | backend/app/api/commands.py:435-458 | Creating a direct provider without the lock does not change the snapshot. |
| GatewayAgreement.DirectProviderCommutes | backend/app/api/commands.py:435-458 | Nor does it change what a concurrent locked edit will commit to. |
| GatewayAgreement.PushInv | backend/app/api/commands.py:394-411 | Sending a candidate keeps the protocol's invariant if and only if the push is not cut off. |
| GatewayAgreement.CommittedReconcileServes | backend/app/services/gateway_runtime.py:641-653 | A reconcile with committed rows that returns ends in agreement. |
| GatewayAgreement.CommittedReconcileSound | backend/app/services/gateway_runtime.py:641-653 | A manager that agrees with the committed rows does not lose track over reconciling with them. |
| GatewayAgreement.CommittedReconcileAgrees | backend/app/services/gateway_runtime.py:641-653 | Nor does agreement end, cancelled or not. |
| GatewayAgreement.RestoreInv | backend/app/services/gateway_runtime.py:596-638 | Compensation ends in agreement, whatever fails inside it. |
| GatewayAgreement.CreateDirectInv | backend/app/api/commands.py:435-458 | Unlocked creation of a direct provider keeps the invariant in every phase. |
| GatewayAgreement.NoticeInv | backend/app/services/gateway_runtime.py:339-348 | A late watcher keeps the invariant if and only if it does not drop a running process. |
| GatewayAgreement.StepInv | backend/app/api/proxies.py:182-250 | Every step of every transaction, exit, watcher, preflight and recovery keeps the invariant if and only if it falls into neither window. |
| GatewayAgreement.RunInv | backend/app/api/proxies.py:258-287 | The invariant holds all along a run if and only if the run stays out of both windows. |
| GatewayAgreement.AgreementOverRuns | backend/app/api/commands.py:540-564 | Over every run from a fresh process on any database, whenever the configuration lock is free the Gateway serves the committed configuration or nothing, unless some push was cut off or some late watcher dropped a running process. |
| GatewayAgreement.CutOffExactly | backend/app/services/gateway_runtime.py:525-539 | After a failed push, compensation restores agreement if and only if the push was not cut off or compensation could not read the rows. |
| GatewayAgreement.CutOffState | backend/app/services/gateway_runtime.py:235-253 | After such a push the candidate is served while the manager believes in the committed snapshot. |
| GatewayAgreement.CutOffMisleads | backend/app/services/gateway_runtime.py:525-539 | The compensation after such a push leaves that belief as it is. |
| GatewayAgreement.RecoveryRepairsExactly | backend/app/services/gateway_runtime.py:366-378 | Recoveries repair it if and only if one of them fails and the PUT of a later one is not cut off before it gets through. |
| GatewayAgreement.CutOffPersists | backend/app/services/gateway_runtime.py:641-653 | So no number of recoveries that succeed repairs it. |
| GatewayAgreement.CutOffWitness | backend/app/services/gateway_runtime.py:246-251 | A concrete run that ends with the Gateway serving a key that was never committed. |
| GatewayAgreement.RestoreKeepsAgreement | backend/app/services/gateway_runtime.py:525-539 | Compensation never ends agreement, whatever the manager has lost track of. |
| GatewayAgreement.OrphanedExactly | backend/app/services/gateway_runtime.py:596-638 | When a commit fails after a late watcher, compensation restores agreement if and only if the watcher dropped no running process, or the candidate was the committed configuration, or compensation takes the socket path over; with no Gateway provider committed it never does. |
| GatewayAgreement.RestoreBesideOrphan | backend/app/services/gateway_runtime.py:525-539 | Compensation beside a dropped process that serves something else restores agreement if and only if it takes the socket path over or its PUT reaches the process there. |
| GatewayAgreement.OrphanedEditExactly | backend/app/services/gateway_runtime.py:80-112 | An edit that succeeds after a process has been dropped ends in agreement if and only if some Gateway provider is left, when it concerns the Gateway; otherwise agreement is what it was. |
| GatewayAgreement.OrphanPersists | backend/app/services/gateway_runtime.py:366-378 | While no Gateway provider is committed, no number of recoveries, failed or not, stops the dropped process. |
| GatewayAgreement.DeletedKeyWitness | backend/app/api/commands.py:540-564 | A concrete run in which nothing fails: the last provider is deleted and committed, and its key is still served. |
| GatewayAgreement.OrphanWitness | backend/app/services/gateway_runtime.py:339-348 | A concrete run, with every PUT answered, that ends with the Gateway serving a key that was never committed. |
| GatewayContents.SnapshotDescribes | backend/app/services/gateway_runtime.py:255-307 | What a snapshot contains, row by row: one route for each Gateway provider and no other; base URL, key and headers are the row's, the proxy URL is that of the proxy the row names or empty, and the models are the non-empty ids of its enabled models in order of first occurrence without repeats, or else its default model. |
| GatewayContents.ProjectionMeans | backend/app/services/gateway_runtime.py:128-137 | When there is no snapshot: a named proxy is gone or unusable, no Gateway provider exists, or one of them speaks another format or lacks base URL or key. |
| GatewayContents.PushServesEdit | backend/app/api/commands.py:394-411 | After a push that succeeds the Gateway serves the edited row as edited and every other row as it was. |
| GatewayContents.ContentsOverRuns | backend/app/api/commands.py:540-564 | Over every run that stays out of both windows, whenever the configuration lock is free and the Gateway serves anything, it serves one route for each committed Gateway provider, carrying that row, and no other. |
| GatewayProgress.RefusedExactly | backend/app/api/proxies.py:182-287 | An edit is refused exactly if its row does not fit, it creates a direct provider, or it deletes a proxy some provider names. |
| GatewayProgress.ConcernsGateway | backend/app/api/commands.py:495-522 | The subprocess is told of an edit exactly if a row that is or was a Gateway provider is written, or one uses the proxy written. |
| GatewayProgress.EditGoesThrough | backend/app/api/commands.py:540-564 | An accepted edit that nothing disturbs is committed, and the Gateway then serves the configuration just committed; an edit that does not concern it leaves it alone. |
| GatewayProgress.BadEditIsRefused | backend/app/api/commands.py:394-411 | An edit whose candidate cannot be pushed is never committed; its push leads to compensation. |
| GatewayProgress.RestoreServes | backend/app/services/gateway_runtime.py:596-638 | Compensation that nothing disturbs serves the committed configuration and frees the lock. |
| GatewayProgress.RecoveryServes | backend/app/services/gateway_runtime.py:366-378 | So does a recovery. |
| GatewayProgress.TrialIsTemporary | backend/app/services/gateway_runtime.py:453-500 | The temporary provider of a test is served beside the committed ones, and is gone after compensation. |
| ModelRefresh.MergedIds | backend/app/api/commands.py:1603-1632 | The merged ids are the fetched ids followed by the unfetched custom ones, in stored order. |
| ModelRefresh.MergedLookup | backend/app/api/commands.py:1603-1632 | For every id, the entry the merged list holds for it, or that it holds none. |
| ModelRefresh.EnabledStateKept | backend/app/api/commands.py:1474-1475 | Nothing becomes enabled; every fetched or custom model keeps its state, label and extra fields; exactly the unfetched non-custom models disappear. |
| ModelRefresh.KeysOfMerged | backend/app/api/commands.py:1600-1632 | The keys of a merged list are the distinct fetched ids, then the kept ones. |
| ModelRefresh.MergeIdempotent | backend/app/api/commands.py:1600-1632 | Merging the same upstream list twice is merging it once. |
| ModelRefresh.MergedContents | backend/app/api/commands.py:1600-1632 | The merged list entry by entry: a fetched id stored before keeps its last entry's state, label and fields and is no longer custom; a new one is off and bare; the rest are the custom entries nobody fetched, as they were. |
| ModelRefresh.Merge | backend/app/api/commands.py:1600-1632 | The loops compute that merge for any stored and fetched lists, repeated ids included. |
| ModelRefresh.ProviderRow.WriteFetched | backend/app/api/commands.py:1592-1632 | The list is written if and only if the connection settings are still those it was fetched with, and it is merged into the models as they are then. |
| TraceTables.BatchOfOneTrace | backend/app/api/logs.py:537-564 | The rows of one trace in the batched query are the single-trace query's, in the same order. |
| TraceTables.Group | backend/app/api/logs.py:543-570 | After the grouping loop each trace's list is exactly that query's result. |
| TraceTables.SpanActionGroups | backend/app/api/logs.py:537-571 | Both dictionaries hold, for each requested trace, what the detail view reads. |
| TraceTables.FailuresCounted | backend/app/api/logs.py:426-448 | Counting failures by a grouped query or over the ordered rows gives the same number. |
| TraceTables.ListVersusDetail | backend/app/api/logs.py:390-456 | List and detail agree on plugin keys, action and error counts; they agree on the plugin count if and only if no span of the trace carries the empty plugin key. |
| TraceTables.SpanTable.RecordSpan | backend/app/services/event_trace.py:131-161 | A span is added with its plugin key normalised, and the table keeps only proper keys. |
| TraceTables.RecordedSpansAgree | backend/app/api/logs.py:817-822 | On every table that `record_span` has written, list and detail view agree on all four counters. |
| TraceTables.RowsOfMeans | backend/app/api/logs.py:781-808 | The detail view's query returns a trace's rows, each as often as the table holds it, by time and then by id. |
| TraceTables.SummaryCounts | backend/app/api/logs.py:579-585 | What the four counters mean: the distinct non-empty plugin keys of the spans, their number, the number of actions, and the failed or warned spans plus the failed actions. |
| MessageStream.BelowIsAfter | backend/app/api/logs.py:513-519 | A row satisfies the cursor condition exactly when it comes after the cursor's row in the result order, ties in time included. |
| MessageStream.CursorSplits | backend/app/api/logs.py:513-519 | The cursor keeps exactly the rows after it. |
| MessageStream.PageIsNextStretch | backend/app/api/logs.py:459-534 | Each page is the next stretch of the whole ordered list: no row skipped, none repeated. |
| MessageStream.ItemsOfPage | backend/app/api/logs.py:746-756 | The items of a page, built from the batched groups, are the items of its rows one by one. |
| MessageStream.KeepVerdict | backend/app/api/logs.py:757-758 | Keeps exactly the items with the requested verdict, in order, and all of them when none is requested. |
| MessageStream.PageStep | backend/app/api/logs.py:759-764 | One turn extends the items by the page's items and moves the cursor to the page's last row; a short page is the last. |
| MessageStream.ReadPage | backend/app/api/logs.py:729-764 | The loop goes on only while items are missing and rows remain; when it stops, stopping loses nothing. |
| MessageStream.FirstOfAll | backend/app/api/logs.py:760-765 | Stopping early gives the same first `limit` items. |
| MessageStream.ExpectedMeans | backend/app/api/logs.py:700-765 | Of the items themselves: each shows a trace of the table that passes both filters, with counters and verdict from its own spans and actions in time order; newest first, none twice, at most `limit`; a trace that passes and is not shown means the list is full of newer ones. |
| MessageStream.CountersOfList | backend/app/api/logs.py:579-585 | On recorded spans the counters of every item are those of the trace list. |
| MessageStream.ListLogMessages | backend/app/api/logs.py:700-765 | For any table, filters, verdict and limit the result is the first `limit` items of the fully ordered, fully filtered list, whatever the batch size; its items are truthful and complete, with the trace list's counters on recorded spans; the loop ends. |
| PayoutMigrations.RowNumberMeaning | backend/alembic/versions/0038_action_event_payout_key.py:81-96 | `ROW_NUMBER() > 1` means that an older countable row holds the same key in the partition. |
| PayoutMigrations.MinIdMeaning | backend/alembic/versions/0038_action_event_payout_key.py:113-119 | The correlated minimum is the id of a row of the partition, and the smallest. |
| PayoutMigrations.DialectsMarkAlike | backend/alembic/versions/0039_payout_scope_and_action_source.py:64-126 | The window form and the correlated-minimum form mark the same rows, in the global and the per-account partition. |
| PayoutMigrations.ActionEventTable.Execute | backend/alembic/versions/0038_action_event_payout_key.py:52-73 | An UPDATE computes every row from the table as it was before the statement. |
| PayoutMigrations.ActionEventTable.Upgrade38 | backend/alembic/versions/0038_action_event_payout_key.py:21-137 | The table after 0038 is the specified one, and the unique index that is created last fits. |
| PayoutMigrations.ActionEventTable.Upgrade39 | backend/alembic/versions/0039_payout_scope_and_action_source.py:48-126 | The table after 0039's canonicalization is the specified one, and the account-scoped unique index fits. |
| PayoutMigrations.ClearingMakesUnique | backend/alembic/versions/0038_action_event_payout_key.py:77-123 | Clearing the marked keys leaves at most one countable row per key. |
| PayoutMigrations.DemotingMakesUnique | backend/alembic/versions/0039_payout_scope_and_action_source.py:64-126 | Demoting the marked rows leaves at most one countable row per account and key. |
| PayoutMigrations.ClearingLosesNothing | backend/alembic/versions/0039_payout_scope_and_action_source.py:49-63 | 0039's backfill gives every row the key 0038 derived for it, cleared or not. |
| PayoutMigrations.MarkedHaveTwins | backend/alembic/versions/0039_payout_scope_and_action_source.py:64-85 | The rows marked are those with an older countable row of the same account and derived key. |
| PayoutMigrations.TwoStepsAreOne | backend/alembic/versions/0039_payout_scope_and_action_source.py:48-126 | 0038 then 0039 is one direct per-account canonicalization of the legacy rows: each row ends with its derived key, and exactly the countable rows with an older twin become FAILED. |
| PayoutMigrations.OldestStaysCountable | backend/alembic/versions/0039_payout_scope_and_action_source.py:231-244 | No other row changes status, and every countable row with a key has exactly one countable survivor, its oldest twin. |
| PayoutMigrations.UpgradeSettles | backend/alembic/versions/0039_payout_scope_and_action_source.py:48-126 | After 0039 nothing is left to backfill or demote. |
| PayoutMigrations.SettledIsFixed | backend/alembic/versions/0039_payout_scope_and_action_source.py:48-126 | 0039 changes nothing of a settled table. |
| PayoutMigrations.UpgradeIdempotent | backend/alembic/versions/0039_payout_scope_and_action_source.py:48-126 | Canonicalizing twice is canonicalizing once. |
| PayoutContents.DerivedIsNamed | backend/alembic/versions/0039_payout_scope_and_action_source.py:52-57 | The key derived for a row is the one its JSON names: the top-level text unless it is blank, else that of `result`; without its outer spaces on PostgreSQL, as it stands on SQLite; and there is none exactly if the JSON names none. |
| PayoutContents.FirstUpgradeMeans | backend/alembic/versions/0038_action_event_payout_key.py:30-123 | After 0038 a legacy row has the key its JSON names, unless it is countable and an older countable row names it too; no other column has changed. |
| PayoutContents.BothUpgradesMean | backend/alembic/versions/0039_payout_scope_and_action_source.py:48-126 | After 0038 and 0039 every legacy row has exactly the key its JSON names, and a countable row is FAILED exactly if an older countable row of its account names that key, with its error columns filled only where they were empty; nothing else has changed. |
| PayoutContents.ResultTwins | backend/alembic/versions/0038_action_event_payout_key.py:41-73 | Two paid rows of one account whose `result` names the same key: both get it, the younger stops being countable, and the older stays so exactly if none is older still. |
| PayoutContents.UnpaidRowsStay | backend/alembic/versions/0039_payout_scope_and_action_source.py:64-126 | A row that is no payout, or never went through, keeps its status and causes no demotion. |
| PayoutContents.SecondUpgradeKeys | backend/alembic/versions/0039_payout_scope_and_action_source.py:49-63 | 0039 alone, on any table: a key that stands is kept, and a countable row without one gets the key its JSON names. |
| PayoutDowngrade.LegacyKeyInjective | backend/alembic/versions/0039_payout_scope_and_action_source.py:129-131 | The rendered key determines the account and the digest. |
| PayoutDowngrade.LegacyKeyFits | backend/alembic/versions/0039_payout_scope_and_action_source.py:129-131 | For every 64-bit account id the rendered key fits 80 characters. |
| PayoutDowngrade.Tables.WriteCompensation | backend/alembic/versions/0039_payout_scope_and_action_source.py:162-175 | An UPDATE of one ticket is refused exactly when another ticket of its account holds the new key. |
| PayoutDowngrade.Tables.WriteAction | backend/alembic/versions/0039_payout_scope_and_action_source.py:195-208 | The same for a ledger row under the partial unique index. |
| PayoutDowngrade.Tables.RestoreCompensations | backend/alembic/versions/0039_payout_scope_and_action_source.py:149-175 | The first loop succeeds if and only if no ticket renders to the present key of a later ticket of its account, and then renders every ticket. |
| PayoutDowngrade.Tables.RestoreActions | backend/alembic/versions/0039_payout_scope_and_action_source.py:177-208 | The same for the ledger loop. |
| PayoutDowngrade.Tables.RestoreGlobalKeys | backend/alembic/versions/0039_payout_scope_and_action_source.py:146-208 | Both tables are rendered, or, exactly when a loop meets such a row, both stay as they were. |
| PayoutDowngrade.RestoredApart | backend/alembic/versions/0039_payout_scope_and_action_source.py:129-208 | Rows the account-scoped index keeps apart stay apart in the global namespace. |
| PayoutDowngrade.FirstDowngradeIsSafe | backend/alembic/versions/0039_payout_scope_and_action_source.py:146-208 | A downgrade of keys none of which is a rendering succeeds in any order of the rows. |
| PayoutDowngrade.StaysGrown | backend/alembic/versions/0039_payout_scope_and_action_source.py:146-208 | Inserting rows with plain keys and downgrading keep an older row's key at least as often rendered as a younger one's. |
| PayoutDowngrade.DowngradeKeepsGrown | backend/alembic/versions/0039_payout_scope_and_action_source.py:146-208 | So does the downgrade on both tables. |
| PayoutDowngrade.IdOrderIsSafe | backend/alembic/versions/0039_payout_scope_and_action_source.py:149-157 | On such a table no row renders to the key of a younger row, so the loop succeeds in id order. |
| PayoutDowngrade.DowngradeInIdOrder | backend/alembic/versions/0039_payout_scope_and_action_source.py:146-208 | Both loops of the downgrade succeed in id order, however often keys were paid again in between. |
| PayoutDowngrade.RenderedKeyWitness | backend/alembic/versions/0039_payout_scope_and_action_source.py:149-157 | After one downgrade and upgrade a key is paid again: the next downgrade succeeds in id order and fails when the younger row comes first. |
| PayoutDowngrade.RestoredKeysGloballyUnique | backend/alembic/versions/0039_payout_scope_and_action_source.py:279-295 | Both global unique indexes fit after the downgrade. |
| PayoutDowngrade.LinksSurvive | backend/alembic/versions/0039_payout_scope_and_action_source.py:146-208 | A ticket and a ledger row share a key afterwards if and only if they shared account and key before. |
| PayoutDowngrade.CopiesAgree | backend/alembic/versions/0039_payout_scope_and_action_source.py:134-208 | Each JSON copy of a key says what the column says. |
| PayoutDowngrade.ReupgradeChangesNothing | backend/alembic/versions/0039_payout_scope_and_action_source.py:48-126 | Upgrading again backfills nothing and demotes no row. |
| PayoutDowngrade.UpDownUp | backend/alembic/versions/0039_payout_scope_and_action_source.py:211-295 | The way 0038, 0039, down, up ends where the downgrade left the ledger, and its keys are globally unique in between. |
| PayoutDowngrade.DerivedFromCopy | backend/alembic/versions/0039_payout_scope_and_action_source.py:186-208 | A rendered key is what both dialects read back from its JSON copy. |
| PayoutDowngrade.ColumnComesBack | backend/alembic/versions/0038_action_event_payout_key.py:30-123 | Downgrading past 0038, which drops the column, and upgrading again gives every row its key back and demotes none. |
| PayoutDowngrade.RecognisedAfterwards | backend/app/services/action_tap.py:352-371 | After a downgrade and an upgrade a key is found as paid if and only if it is the rendering of a key that was; no plain key is found any more, in either table. |
| UpdaterJob.JobTable.Set | deploy/updater/server.py:718-773 | The job after the call is the specified one; every other job is untouched. |
| UpdaterJob.JobTable.AppendLog | deploy/updater/server.py:782-789 | One stripped line is added, the last 240 are kept; every other job is untouched. |
| UpdaterJob.StoredIsTail | deploy/updater/server.py:776-779 | Over any history the stored job is the one that keeps everything, its lists cut to the last 40 steps and 240 lines. |
| UpdaterJob.AccountsAppend | deploy/updater/server.py:733-741 | A step rounded down to whole milliseconds keeps the sum within one millisecond a step. |
| UpdaterJob.OpenHistoryAccounts | deploy/updater/server.py:718-773 | While a job runs, its steps account for the time up to its present phase and neighbouring steps differ. |
| UpdaterJob.TimingsAccountForRun | deploy/updater/server.py:748-771 | A finished job's steps sum to its life time, short by less than a millisecond a step; the closing call adds its own phase once, as the last step. |
| UpdaterJob.ParseProgress | deploy/updater/server.py:109-119 | A parsed line gives a percentage from 0 to 100 and a phase that is never empty. |
| UpdaterJob.MembersAreLastNamed | deploy/updater/server.py:718-773 | After any history status, phase, detail and start time are those of the last calls that named them. |
| UpdaterContents.CallMeans | deploy/updater/server.py:718-773 | One call on any job: leaving a named phase adds its step, with the time it lasted and its detail, and a log line; the members named are taken over; a closing call adds its own phase unless it has none or that is the last step's. |
| UpdaterContents.LineMeans | deploy/updater/server.py:776-779 | A line ends the log without its trailing white space and changes nothing else. |
| UpdaterContents.ProgressRead | deploy/updater/server.py:109-119 | A line of marker, number, phase and detail, with any line end, is read as just that, the number clamped to 0..100; without a number it is not progress. |
| UpdaterContents.OnlyProgressRead | deploy/updater/server.py:109-119 | Only such lines are read as progress. |
| UpdaterThreads.EntryAdded | deploy/updater/server.py:718-773 | What one more call does to a job's status and the shape of its history. |
| UpdaterThreads.StepInv | deploy/updater/server.py:792-885 | Every step of every thread keeps the invariant tying program counters, lock, job statuses and histories together. |
| UpdaterThreads.RunInv | deploy/updater/server.py:792-885 | It holds in every interleaving of any number of threads. |
| UpdaterThreads.RunningHoldsLock | deploy/updater/server.py:792-811 | A running job's thread holds the apply lock, so at most one job runs. |
| UpdaterThreads.NoLockLeft | deploy/updater/server.py:875-885 | When all threads have exited the lock is free and every job closed. |
| UpdaterThreads.OnlyHolderReleases | deploy/updater/server.py:793-800 | The lock changes hands only by its holder's release; a refused thread never frees it. |
| UpdaterThreads.StatusMoves | deploy/updater/server.py:792-885 | Jobs move queued → failed or queued → running → succeeded/failed, and a closed job never changes. |
| UpdaterThreads.ClosedJobsAccount | deploy/updater/server.py:792-885 | In every interleaving a closed job was closed by one call, its last, and what is stored is the tail of lists that account for its whole time. |
| UpdaterLiveness.LockGranted | deploy/updater/server.py:793-800 | In every reachable state a thread that tries the lock gets it exactly if no thread is inside, and is refused exactly if another one is. |
| UpdaterLiveness.RefusedMetLock | deploy/updater/server.py:793-800 | Every refusal in a run goes back to an attempt made while another job was inside. |
| UpdaterLiveness.NewJobWaits | deploy/updater/server.py:983-999 | In every reachable state a job with a new id can be created; it waits, and nothing else changes. |
| UpdaterLiveness.QueuedCanSucceed | deploy/updater/server.py:792-885 | From every reachable state with a free lock a queued job can become running and then succeeded by its own steps. |
| UpdaterLiveness.WorkIsReported | deploy/updater/server.py:850-858 | A running job takes lines and progress at any time and goes on running. |
| UpdaterLiveness.WorkCanFail | deploy/updater/server.py:875-885 | Work that raises at any moment inside the lock closes its job as failed and gives the lock back. |
| UpdaterLiveness.NoDeadEnd | deploy/updater/server.py:792-885 | From every reachable state some run ends with every thread exited, the lock free, and each job that was queued, holding or running succeeded. |
| RateLimiter.Limiter.constructor | backend/app/api/auth.py:75 | The limiter starts with no buckets. |
| RateLimiter.Limiter.Sweep | backend/app/api/auth.py:122-126 | The sweep drops exactly the buckets older than 120 seconds. |
| RateLimiter.Limiter.Admit | backend/app/api/auth.py:109-127 | One call on the table: the new table and the decision. |
| RateLimiter.Limiter.Check | backend/app/api/auth.py:109-127 | The call as a step of the run; afterwards at most 1000 buckets remain or all of them started within the last 120 seconds. |
| RateLimiter.EvictionUnobservable | backend/app/api/auth.py:121-126 | Over every run with a clock that does not run backwards, each call is treated exactly as by a limiter that never evicts. |
| RateLimiter.CallsAreFair | backend/app/api/auth.py:115-127 | Every call lies in its window, the first call of a window opens it, earlier windows of the key are over by then, and a call is let through exactly when the calls of its window up to it do not exceed the limit. |
| RateLimiter.WindowAdmits | backend/app/api/auth.py:115-127 | Each window lets through min(calls, limit) calls. |
| RateLimiter.TwoWindowsCover | backend/app/api/auth.py:117-118 | Any 60 seconds meet at most two windows of a key. |
| RateLimiter.TwiceTheLimit | backend/app/api/auth.py:109-127 | In no 60 seconds of any run does a key get more than twice its limit. |
| AuthReachability.WalkStays | backend/app/openapi_contract.py:53-65 | A set of dependants closed under dependencies keeps every path that starts in it. |
| AuthReachability.SearchedAll | backend/app/openapi_contract.py:56-65 | An exhausted search has seen everything reachable. |
| AuthReachability.RouteRequiresAuth | backend/app/openapi_contract.py:53-65 | True if and only if some dependant whose callable is the current user is reachable, for any finite graph with sharing and cycles; the search ends. |
| AuthReachability.OperationSecurity | backend/app/openapi_contract.py:68-84 | The requirement list of an operation, empty when nothing is required. |
| AuthReachability.Describe | backend/app/openapi_contract.py:156-163 | The operation's security, and which error responses it has; responses already there are kept. |
| AuthReachability.DescribeRoute | backend/app/openapi_contract.py:151-163 | The loop over a route's verbs. |
| AuthReachability.BuildOpenapiSchema | backend/app/openapi_contract.py:151-163 | After both loops every operation carries the security of the last route that serves it and the error responses of all that do; nothing else changes. |
| AuthReachability.OnlyTurn | backend/app/openapi_contract.py:151-163 | With one route per operation, that route is the last. |
| AuthReachability.VerbFindsOperation | backend/app/openapi_contract.py:151-156 | A verb in capitals finds the operation kept under the same small letters; it is safe exactly if it is GET, HEAD or OPTIONS, and only POST on the webhook path is the webhook. |
| AuthReachability.OthersStay | backend/app/openapi_contract.py:151-166 | An operation no route writes stays as it was generated. |
| AuthReachability.NeededIsTruthful | backend/app/openapi_contract.py:68-84 | The login cookie is asked for exactly when the current user is reachable, the CSRF triple exactly on unsafe verbs, the webhook token alone on the webhook, and nothing only for public operations. |
| AuthReachability.SchemaTellsTheTruth | backend/app/openapi_contract.py:151-166 | Of every verb of every route that alone writes its operation, the finished schema says just that; beside the responses already there, which are kept, it documents exactly 500, 401 where a login or a webhook token is asked for, and 403 where the CSRF triple is. |
| TokenMasking.Collector.constructor | backend/app/api/features.py:183-184 | The collecting list and set start empty. |
| TokenMasking.Collector.Add | backend/app/api/features.py:186-191 | An entry joins unless its token is refused or already there. |
| TokenMasking.TokenEntries | backend/app/api/features.py:182-206 | The entries read from a configuration: list items, then the legacy field's pieces. |
| TokenMasking.EntriesAreProper | backend/app/api/features.py:182-206 | They are trimmed and not empty, and no token occurs twice. |
| TokenMasking.CollectKeepsFirst | backend/app/api/features.py:186-191 | Of each token the first occurrence is kept, with its note. |
| TokenMasking.ResolvesById | backend/app/api/features.py:293-308 | An item with the id of an entry stands for the last entry with that id. |
| TokenMasking.OriginOfToken | backend/app/api/features.py:306-308 | What an item stands for is a stored token, or the text typed, provided that is not a mask on display. |
| TokenMasking.Normalize | backend/app/api/features.py:293-312 | The merge loop computes the specified list. |
| TokenMasking.PreserveTokens | backend/app/api/features.py:284-316 | The configuration that is saved; without a token list the incoming one is returned as it came. |
| TokenMasking.SavedIsProper | backend/app/api/features.py:307-312 | Whatever comes in, the saved tokens are trimmed, not empty, pairwise different and never the redaction mark. |
| TokenMasking.NoMaskIsStored | backend/app/api/features.py:306 | Each saved token was stored before or was typed, and typed text that is a mask on display is never saved. |
| TokenMasking.SavedReadsBack | backend/app/api/features.py:182-206 | A saved list is read back as it was saved. |
| TokenMasking.SelectionIsRestored | backend/app/api/features.py:284-316 | Items that keep the ids of different entries, in any order and with any notes, save exactly those tokens in that order with those notes. |
| TokenMasking.MaskResolves | backend/app/api/features.py:294-306 | An item without a usable id that shows the mask of an entry stands for that entry, as long as masks differ. |
| TokenMasking.RoundTripExactly | backend/app/api/features.py:209-227 | Saving back what was displayed restores tokens and notes if and only if the shortened ids differ and no token is the redaction mark. |
| TokenMasking.MarkIsLost | backend/app/api/features.py:203-206 | A configuration whose legacy field holds the redaction mark stores it as a token, and saving back what is displayed loses it. |
| TokenContents.ListElementRead | backend/app/api/features.py:193-202 | One more element of a stored list: its token, the first of three fields that is not empty, comes last with its note, unless it is blank or known. |
| TokenContents.LegacyLineRead | backend/app/api/features.py:203-206 | The legacy field after the list: its one line comes last, unless it is blank or known. |
| TokenContents.LegacyNextRead | backend/app/api/features.py:203-206 | So does each further line after a comma or a line break. |
| TokenContents.SeparatorsSplit | backend/app/api/features.py:204 | Exactly the comma and the ten line boundaries of `splitlines` separate. |
| TokenContents.DisplayMeans | backend/app/api/features.py:209-227 | What a client is shown for each entry: four characters at each end of the token, or ten of a long one, its note and its id, and nothing else. |
| TokenContents.StandsForOne | backend/app/api/features.py:294-308 | Every item stands for exactly one entry: the last one with its id, else the last one shown as its text, else its text; a blank or the mark then stands for the entry at the item's place. |
| TokenContents.ItemIsSaved | backend/app/api/features.py:306-312 | One more item: the entry it stands for is saved last, unless it is blank, the mark or there already. |
| TokenContents.TypedTokenIsSaved | backend/app/api/features.py:306-312 | Text that is no mask on display, under a reference to no entry, is saved as typed with its note, unless an earlier item has saved it. |
| TokenContents.BlankKeepsItsPlace | backend/app/api/features.py:307-310 | A blank or the mark, under a reference to no entry, keeps the token stored at its place with the new note; beyond the stored entries it saves nothing. |
| TokenContents.SavedConfig | backend/app/api/features.py:312-316 | Each saved token is stored under its own name with its note, and the legacy field is emptied. |
| PassthroughOrder.Leading | backend/app/api/features.py:608-628 | How many keys precede the first one that is refused. |
| PassthroughOrder.RequestedOneMore | backend/app/api/features.py:601 | Cleaning the request drops blank keys, strips the others and keeps their order. |
| PassthroughOrder.PlacedMeans | backend/app/api/features.py:108-130 | A key that takes its place stays enabled and opted in, gets ten times its position as priority, loses the retired sub-fields and keeps the rest of its configuration. |
| PassthroughOrder.AccountFeatures.Reorder | backend/app/api/features.py:585-659 | All keys get priorities 0, 10, 20, … and nothing else changes, or the request is refused; a key refused in the loop leaves the keys before it committed. |
| PassthroughOrder.RefusalChangesTable | backend/app/api/features.py:608-640 | A refused request changes the table if and only if some key before the offending one was not in its place already. |
| PassthroughOrder.RefusedReorder | backend/app/api/features.py:608-640 | A concrete request that is refused and changes the table. |
| PassthroughOrder.DispatchFollowsOrder | backend/app/worker/plugins/loader.py:1824-1850 | After a successful reorder the worker calls the requested plugins it has loaded in the requested order, whatever order it holds them in and whatever else is loaded. |
| PassthroughOrder.AllAreCalled | backend/app/worker/plugins/loader.py:1824-1850 | Exactly the loaded plugins that have opted in are called, each once. |
| PassthroughOrder.CalledFirst | backend/app/worker/plugins/loader.py:1672-1678 | Of two of them the one of lower priority is called first, by key if equal; no priority counts as 1000 and a negative one as 0. |
| PassthroughOrder.PreviewAgrees | backend/app/worker/plugins/loader.py:1280-1283 | The preview lists the plugins in dispatch order if and only if every plugin of priority 0 would come before all others at priority 1000 as well. |
| PassthroughOrder.PreviewContradictsReorder | backend/app/worker/plugins/loader.py:1280-1283 | After every reorder whose first two plugins are loaded, the preview contradicts the dispatch. |

## Left out

- The Gateway need not serve the committed configuration at every moment: after a failure it may be stopped, so agreement means the committed configuration or nothing.
- GatewayAgreement.StepInv: the client identity version of a snapshot is held constant; the code lets the Gateway lag behind on it.
- GatewayAgreement.AgreementOverRuns: an edit is given by the row it writes; validation in the command service, `patch_proxy`'s field-by-field parsing and the audit rows are not modelled.
- GatewayRuntime.GatewayRuntimeManager.StopLocked: a process that is told to stop is gone at once; the 15 seconds it may drain requests, and its removal of the socket path at the end, are not modelled.
- GatewayRuntime.GatewayRuntimeManager.WatchProcess: the shutdown flag and the scheduling of recoveries; a recovery may come at any time.
- A PUT that the subprocess applies after the caller has gone is folded into the cancelled PUT that had been applied.
- The configuration lock and the database advisory lock are one lock.
- StreamFanIn.StepInv: a client that disconnects closes the consumer and cancels the producers; that path owes no terminal and is not modelled.
- ChatTest.RunOne: model names, token counts, latency, preview and transport metadata of the result are not modelled.
- ChatTest.RunOne: a time-out while a delta waits for room in the queue can leave one delta in the partial text that was not sent; the text of an `error` result is not specified.
- ModelRefresh.Merge: stored entries that are not objects with an id are dropped before; labels are `caption`, further fields one map.
- MessageStream.ListLogMessages: the other filters of the query are one predicate on traces, and the verdict is some function of a trace and its rows.
- PayoutMigrations.ActionEventTable.Upgrade38: column and index DDL, and the varchar(80) limit on keys taken from JSON.
- PayoutDowngrade.Tables.RestoreGlobalKeys: JSON is reduced to the key, the result and its key; the rows of a table are those its SELECT returned.
- UpdaterThreads.StepInv: checking the plan and running the update script are progress calls in any number and order; hand-over between updater processes is not modelled.
- UpdaterJob.JobTable.Set: fields that neither timing nor status depends on (commit ids, summary, plan) are left out.
- RateLimiter.Limiter.Check: the Redis counter in front of it, the normalisation of user names and the client address are not modelled.
- AuthReachability.BuildOpenapiSchema: only the security and response loop; the fixed component schemas are not modelled.
- TokenMasking.PreserveTokens: encryption of the stored configuration and the other sensitive fields; values of a type other than text.
- PassthroughOrder.AccountFeatures.Reorder: encryption of the configuration, the notification of the worker and the audit row.
- HTTP routing, proxies' probes, settings, templates and the browser: input and output around the parts above.
