# PostgreSQL Workbench: verified models

This project models the parts of PostgreSQL Workbench whose correctness depends on many steps or many
functions at once, and proves what they promise. `dafny verify dfyconfig.toml` checks everything.

## What is modelled

**Schema synchronisation** (`DdlNotifications`, `PromiseQueue`, `DdlSyncSpec`, `DdlSyncProofs`,
`DdlSyncTheorems`, `DdlSyncAnswers`, `DdlSyncLosses`, `DdlSyncRetries`, `DdlSyncConverges`, `DdlSyncStatus`,
`DdlSyncRequests`, `DdlSyncController`, `DdlSyncQueues`). One connection's listener protocol as a state
machine whose steps are the code between two awaits; any interleaving of notifications, disconnects,
reconfigurations, refreshes and commits is a run. Four observer fields say which commits the index reflects and which
received notifications no later refresh has covered. `Controller` holds the Maps and Sets as fields; its
`Handle` answers every event with the machine's step, and its `Valid` makes its state a reachable one, so
the theorems are about the object. The other theorems say which refresh answers a receipt, what a listener is
lost for and that it is owed and retried, where a reconciliation ends and what each request achieves. `DdlSyncQueues` runs the promise chain of
`PromiseQueue` beside the machine.

**The index** (`IndexPublication`, `IndexTheorems`, `IndexMarks`, `IndexReads`, `IndexRuns`, `IndexController`,
`CatalogModel`, `CatalogPatch`, `CatalogRows`, `CatalogPatchTheorems`, `CatalogEdges`, `SourceProvider`). Runs of all
scopes with their refresh epochs, the source mutation lock and the rollback of the daemon's source set, with
a `Controller` tied to them in the same way; that a run registers only what it read after its start, on which the schema
synchronisation relies; and the targeted catalog read, whose patch is compared with a full read of the new catalog, and both with its rows.

**Coverage** (`SyntaxTrees`, `SyntaxWalk`, `SyntaxSites`, `SiteKeys`, `SyntaxClashes`, `SyntaxBranches`,
`SyntaxAnalyzer`, `ByteSplices`, `Instrumenter`, `CoverageProbes`, `PrimaryKeyNullability`, `Markers`, `Decimals`,
`NoticeCounting`, `CoverageRuns`, `CoverageResults`, `CoverageRunner`). From the walk over a routine's tree to probe points, byte insertion,
markers, counters and the life of a run. The primary-key rewriting shares the insertion scheme. The runner's
`Handle` and `Valid` tie the object to its machine as well.

**Rows** (`DelimitedText`, `DelimitedSpellings`, `ExportChunks`, `OffsetSession`). Writing and reading delimited text over
UTF-16 code units, cutting it into chunks, and paging through a result.

**Comparison, closure, framing** (`Reconciliation`, `ReferenceCounts`, `SqlNormaliser`, `SqlPieces`,
`WrappingParentheses`, `DependencyClosure`, `Framing`, `FramingAnswers`).

`Options` and `Sequences` hold what the others share.

## Results worth knowing

- A debt can be paid by a refresh that was queued before the listener closed, so nothing is proved about
  commits made while no listener was attached; freshness is stated relative to when the debt was recorded.
- `runIndex` and `runDdlSynchronization` call `publishRegistry` without comparing epochs. A refresh requested
  between their `registries.set` and that call loses its stale mark to a catalog read before the request; this
  happens exactly then (`OlderRunTakesMarkIff`), and both kinds of run get there (`OlderRunsOccur`).
- A dropped relation whose URI is reused keeps its edges after an incremental patch
  (`ReusedUriKeepsDeadEdge`). A removed schema, routine or trigger that has the oid of a relation takes the
  relation's edges with it, because `removedOids` does not tell kinds apart (`SharedOidDropsLiveEdge`). The
  exact condition on the two catalogs and the request is `EdgesAreFullIff`.
- `elsifSections` and `whenSections` count only clauses with a section, while the branch probes count all
  clauses. After an empty clause the site keys of later clauses no longer identify their statements
  (`SiteKeysIdentifyStatements` gives the exact condition, `ShiftedClauseFails` an example). The analysis of
  such a routine always reports an ambiguous line, so the shift never reaches an instrumented routine
  (`ShiftedRoutinesAreRefused`).
- An export without its final newline loses a last row that is a single empty cell, and only that one.
- A response line that is JSON `null` makes `onStdout` throw on its missing `id`; complete lines behind it stay
  in the buffer until the next chunk. Framing is independent of chunking exactly when this cannot happen
  (`FramingIsIndependentIff`, `NullStrandsTheResponse`).
- With no relation selected the targeted constraint query lists oid 0, so it also returns every constraint
  that references nothing; they are dropped because their tables were not read.

## Model

Source paths are relative to the repository.

| member | source | states |
|---|---|---|
| DdlSyncTheorems.DebtClearedOnlyByCoveringRefresh | packages/catalog/src/ddlSync.ts:796-863 | while the connection stays saved, a recorded debt disappears only when a full refresh completes that captured this very epoch and started at or after its recording; the index then reflects every commit up to the recording |
| DdlSyncTheorems.DebtDuringRefreshSurvives | packages/catalog/src/ddlSync.ts:823-850 | a debt recorded after the running refresh started is still there when that refresh completes, whatever it read |
| DdlSyncTheorems.DebtIsPaidByReflection | packages/catalog/src/ddlSync.ts:796-863 | over any run: a debt once recorded is either still owed (no older than it was) or the index reflects every commit made before it was recorded |
| DdlSyncTheorems.OnlyRefreshesCover | packages/catalog/src/ddlSync.ts:747-794 | the stamp of a received notification leaves the observer's list only in a refresh that answers its batch, a full one if the batch asked for that, or in a full refresh that started after its receipt, or by disposal or removal |
| DdlSyncTheorems.NothingIsStranded | packages/catalog/src/ddlSync.ts:698-794 | over any run: each received notification is in the startup buffer, the queue or the batch being flushed of the open listener, covered by a later refresh, or covered by a debt recorded after its receipt |
| DdlSyncTheorems.ReceiptIsTracked | packages/catalog/src/ddlSync.ts:548-555 | a notification received by the current open listener is on that list from its receipt |
| DdlSyncTheorems.QueuesAreServed | packages/catalog/src/ddlSync.ts:785-792 | an open published runtime with a non-empty queue always has a flush active or a timer set |
| DdlSyncTheorems.RefreshesAreServed | packages/catalog/src/ddlSync.ts:997-1028 | the running refresh can always take a step, so no queued refresh waits forever |
| DdlSyncTheorems.AtMostOneOpenListener | packages/catalog/src/ddlSync.ts:922-939 | over any run at most one unclosed runtime exists |
| DdlSyncTheorems.PublishedForCurrentIntent | packages/catalog/src/ddlSync.ts:619-632 | a runtime enters the listeners only for the newest lifecycle epoch, with synchronisation enabled on the same support schema and no other listener |
| DdlSyncTheorems.ListeningMeansNoDebt | packages/catalog/src/ddlSync.ts:834-859 | the status `listening` is announced only when no debt is outstanding |
| DdlSyncAnswers.OnlyAnswersCover | packages/catalog/src/ddlSync.ts:747-863 | a receipt leaves the list only in a refresh that reads for its own notification: full if that has the fallback flag, otherwise full or incremental with every object it names; or in a full refresh that started after it |
| DdlSyncAnswers.ReceiptsAreAnswered | packages/catalog/src/ddlSync.ts:698-863 | over whole runs: a received notification stays on the list until such a refresh is published, unless the controller is disposed or the connection removed |
| DdlSyncAnswers.ReceiptIsBorne | packages/catalog/src/ddlSync.ts:548-555 | what a listener receives is held, from then on, for just that notification |
| DdlSyncAnswers.HeldBackIsBorne | packages/catalog/src/ddlSync.ts:619-672 | the same from the publication of its listener on for what startup held back |
| DdlSyncAnswers.HeadIsRight | packages/catalog/src/ddlSync.ts:802-806 | over whole runs: the running refresh is full exactly when it was asked to be or has captured a debt |
| DdlSyncAnswers.PublishingCovers | packages/catalog/src/ddlSync.ts:796-833 | a published refresh covers exactly its own receipts and, if it is full, everything received before it started |
| DdlSyncAnswers.QueueStays | packages/catalog/src/ddlSync.ts:997-1028 | refreshes wait in order |
| DdlSyncAnswers.OwedDebtIsPaid | packages/catalog/src/ddlSync.ts:802-850 | over any run: a refresh that starts while a debt is owed is full, and when it completes that debt is gone unless a later one has taken its place |
| DdlSyncLosses.ListenerIsLostExactlyFor | packages/catalog/src/ddlSync.ts:252-363 | the listener is lost in a step exactly for one of the reasons of a table: a failure, a restart, a changed schema, settings that turn it off, provisioning, removal, disposal |
| DdlSyncLosses.EveryLossIsOwed | packages/catalog/src/ddlSync.ts:865-939 | whenever a saved connection loses its listener, but for disposal, a new debt is recorded in that step |
| DdlSyncRetries.LostListenerIsRetried | packages/catalog/src/ddlSync.ts:865-920 | over any run: until something newer is requested, a lost listener has the operation that ends its client queued or running, or its reconnect timer set with a stale index that is reported out of step |
| DdlSyncRetries.RetryConnects | packages/catalog/src/ddlSync.ts:910-920 | the timer queues a new attempt, and that attempt connects |
| DdlSyncConverges.ReconciliationConverges | packages/catalog/src/ddlSync.ts:418-692 | over any run: a requested reconciliation is queued or under way until the controller listens on the configured schema, or has no listener and says why, or is off; unless something newer is requested or the configuration changes |
| DdlSyncStatus.GapsAreMarked | packages/catalog/src/ddlSync.ts:418-692 | a status that tells of a gap is announced together with the stale mark |
| DdlSyncStatus.ReceiptsAreMarked | packages/catalog/src/ddlSync.ts:698-745 | what the published listener receives marks the index; what it cannot use is owed and reported besides |
| DdlSyncRequests.ConfigurationResolves | packages/catalog/src/ddlSync.ts:244-250 | a saved override goes before the settings, and a configuration exists exactly when both schemas are valid |
| DdlSyncRequests.AcceptedSchemas | packages/catalog/src/postgresDdlSync.ts:46-60 | a support schema is accepted exactly as an unquoted lower-case name of at most 63 characters outside `pg_`, trimmed |
| DdlSyncRequests.TrimIsExact | packages/catalog/src/postgresDdlSync.ts:46-60 | trimming removes the blanks at both ends and nothing else |
| DdlSyncRequests.SettingsTakeEffect | packages/catalog/src/ddlSync.ts:252-294 | over any run: a setting that can be made is what the store holds when it has answered, and the controller converges to it unless something newer is requested |
| DdlSyncRequests.SettingStarts | packages/catalog/src/ddlSync.ts:252-294 | turning synchronisation on or off owes a refresh, and a listener that is not wanted any more is stopped before the setting is saved |
| DdlSyncRequests.ProvisioningConnects | packages/catalog/src/ddlSync.ts:296-327 | over any run: once PostgreSQL has created the triggers a start that was refused before is made again; a refusal is reported |
| DdlSyncRequests.RemovalIsReported | packages/catalog/src/ddlSync.ts:329-371 | without the triggers the index is stale and provisioning is required again |
| DdlSyncRequests.ListenersAreProvisioned | packages/catalog/src/ddlSync.ts:527-692 | over any run: a listener exists only after its client connected, PostgreSQL answered that the schema is provisioned and LISTEN succeeded, one answer each, in this order |
| DdlSyncRequests.FailedStartsAreTold | packages/catalog/src/ddlSync.ts:673-696 | a start that fails is closed and told: a missing privilege is reported, anything else is retried |
| DdlSyncRequests.UnprovisionedIsTold | packages/catalog/src/ddlSync.ts:594-610 | a schema without its triggers is reported and not retried |
| DdlSyncRequests.StartIsAnswered | packages/catalog/src/ddlSync.ts:572-632 | what a start is answered decides how it goes on |
| DdlSyncRequests.ReconcileWaits | packages/catalog/src/ddlSync.ts:488-500 | without a listener a reconciliation waits for a retry that is set and leaves an unprovisioned schema alone |
| DdlSyncRequests.StaleListenerIsRefreshed | packages/catalog/src/ddlSync.ts:502-525 | behind a listener that is still wanted a stale index is refreshed in full, unless a refresh is under way |
| DdlSyncRequests.StoppedIsQuiet | packages/catalog/src/ddlSync.ts:922-939 | a stopped listener has no timer left, and no retry |
| DdlSyncRequests.RemovedConnectionsAreForgotten | packages/catalog/src/ddlSync.ts:418-456 | over any run: nothing is left of a removed connection once its reconciliation is done |
| DdlSyncRequests.RestartStopsListener | packages/catalog/src/ddlSync.ts:400-416 | over any run: a requested restart is queued until it stops the listener, unless something newer is requested |
| DdlSyncRequests.DisposalStopsListener | packages/catalog/src/ddlSync.ts:373-384 | over any run: disposal is queued until it stops the listener, and no retry stays |
| DdlSyncTheorems.EveryStepOk | packages/catalog/src/ddlSync.ts:386-1150 | every step of the protocol either reports, or changes debt, receipts and status only as the theorems above allow |
| DdlSyncProofs.NextKeeps | packages/catalog/src/ddlSync.ts:386-1150 | every step of the protocol keeps the invariant: one open listener, consistent queues and flushes, every receipt accounted for |
| DdlSyncProofs.RunKeeps | packages/catalog/src/ddlSync.ts:386-1150 | so does every run |
| DdlSyncProofs.NotifyingKeeps | packages/catalog/src/ddlSync.ts:698-745 | a notification is queued with its timer, or rejected with a debt, without losing another one |
| DdlSyncProofs.DrainingKeeps | packages/catalog/src/ddlSync.ts:669-672 | draining the startup buffer keeps every held-back notification accounted for |
| DdlSyncProofs.BatchesHold | packages/catalog/src/ddlSync.ts:756-757 | the coalesced groups of a flush hold the receipt of every notification that was spliced off the queue |
| DdlSyncProofs.FlushContinuingKeeps | packages/catalog/src/ddlSync.ts:755-793 | a flush resumed with the outcome of its refresh goes on, ends, or closes the listener with a debt; nothing it held is lost |
| DdlSyncProofs.SettlingKeeps | packages/catalog/src/ddlSync.ts:997-1028 | a refresh that leaves its queue tells exactly its awaiter |
| DdlSyncProofs.EnteringListenersKeeps | packages/catalog/src/ddlSync.ts:619-672 | publishing a started listener keeps the invariant, behind a refresh or not |
| DdlSyncProofs.ReconcileConnectionKeeps | packages/catalog/src/ddlSync.ts:418-525 | reconciling a connection keeps the invariant on every path |
| DdlSyncController.Controller.constructor | packages/catalog/src/ddlSync.ts:144-161 | a new controller is an initial state of the protocol, from which everything else is reached |
| DdlSyncController.Controller.Handle | packages/catalog/src/ddlSync.ts:386-1150 | any event takes the controller through exactly the protocol's step; a debt goes only with the completed full refresh that captured it, receipts stay accounted for until a later refresh covers them, at most one runtime is open, and `listening` is not announced over a debt |
| DdlSyncController.Controller.RecordFullRefreshDebt | packages/catalog/src/ddlSync.ts:1063-1068 | the new debt answers for everything received so far, and no refresh under way has captured it |
| DdlSyncController.Controller.StopListenerNow | packages/catalog/src/ddlSync.ts:922-939 | no runtime is open afterwards, and a debt answers for whatever is still owed |
| DdlSyncController.Controller.ListenerHasClosed | packages/catalog/src/ddlSync.ts:865-911 | in one step the listener is gone, a debt answers for what it held and the newest lifecycle operation is its own; the stale mark waits for that operation |
| DdlSyncController.Controller.ReceiveNotification | packages/catalog/src/ddlSync.ts:548-555 | what the listener receives is on the observer's list and accounted for |
| DdlSyncController.Controller.DrainStartupNotifications | packages/catalog/src/ddlSync.ts:669-672 | the loop over the startup buffer takes its notifications in order |
| DdlSyncController.Controller.HandleReconcileFailure | packages/catalog/src/ddlSync.ts:1070-1108 | while the connection is saved, a debt answers for everything received and no listener is left; its lifecycle operation is queued, or without a listener the scope is stale and the reconnect timer set |
| DdlSyncController.Controller.LoopFlush | packages/catalog/src/ddlSync.ts:755-768 | the queue of an open runtime is empty afterwards, the awaited batch holds every receipt it held, and a refresh for it is queued |
| DdlSyncController.Controller.PublishStartedListener | packages/catalog/src/ddlSync.ts:619-667 | the new runtime is the listener and everything startup held back is tracked; behind a debt or a stale index exactly one full refresh is queued, and `listening` is not announced over a debt |
| DdlSyncController.Controller.CompleteRefresh | packages/catalog/src/ddlSync.ts:823-859 | the debt goes exactly when this refresh captured it, and then the index reflects all commits before it; a changed status is `listening` exactly when no debt is left |
| DdlSyncProofs.FlushStartingKeeps | packages/catalog/src/ddlSync.ts:747-755 | a fired timer starts at most one flush and strands nothing |
| DdlSyncProofs.FlushLoopingKeeps | packages/catalog/src/ddlSync.ts:755-768 | a round of the flush moves the queue into the batch it awaits, or ends the flush |
| DdlSyncProofs.FlushEndingKeeps | packages/catalog/src/ddlSync.ts:785-792 | after the flush a queue filled meanwhile has its timer |
| DdlSyncProofs.RefreshStartingKeeps | packages/catalog/src/ddlSync.ts:796-806 | the captured epoch is that of a debt recorded before the refresh started |
| DdlSyncProofs.ReconcileListenerKeeps | packages/catalog/src/ddlSync.ts:488-525 | starting a listener, or refreshing a stale index behind a live one, keeps the invariant |
| DdlSyncProofs.ResumingStartupKeeps | packages/catalog/src/ddlSync.ts:668-692 | the startup refresh, however it ends, leaves no notification unaccounted for |
| DdlSyncProofs.ResumingAfterCloseKeeps | packages/catalog/src/ddlSync.ts:877-910 | the operation behind a closed listener keeps the invariant, whether or not its intent is current |
| DdlSyncProofs.RejectionKeeps | packages/catalog/src/ddlSync.ts:1070-1108 | a failed reconciliation closes the listener with a debt, or records one |
| DdlSyncProofs.ReachableHolds | packages/catalog/src/ddlSync.ts:144-1150 | every state the controller can reach satisfies the invariant |
| DdlNotifications.CoalesceNotifications | packages/catalog/src/postgresDdlSync.ts:95-128 | the loop over the Map of groups computes the grouping below |
| DdlNotifications.CoalesceIsGroupBy | packages/catalog/src/postgresDdlSync.ts:95-128 | one group per database and transaction, in order of first appearance, with the first object of every identity, every distinct reason and the fallback flag if any member has it |
| DdlNotifications.CoalesceKeepsEverything | packages/catalog/src/postgresDdlSync.ts:95-128 | every notification has its group, which keeps its object identities and its fallback flag |
| DdlNotifications.SameMeans | packages/catalog/src/postgresDdlSync.ts:95-128 | which objects and which transactions are the same |
| DdlNotifications.CoalesceInventsNothing | packages/catalog/src/postgresDdlSync.ts:95-128 | every object and flag of a group comes from a notification of that group |
| PromiseQueue.StepRefines | packages/catalog/src/ddlSync.ts:955-986 | each step of the promise chain is a step of a FIFO queue that runs one operation at a time |
| PromiseQueue.ChainRefinesFifo | packages/catalog/src/indexController.ts:926-947 | every interleaving of enqueues, starts, ends and Map clean-ups is a run of that queue, in enqueue order |
| PromiseQueue.PendingCountsUnfinished | packages/catalog/src/ddlSync.ts:955-986 | the pending counter is the number of unfinished operations |
| PromiseQueue.NeverStuck | packages/sql/src/localCodeMonikerSyntax.ts:241-252 | while an operation is unfinished the next one can always take a step |
| PromiseQueue.IdleMeansNothingPending | packages/catalog/src/ddlSync.ts:988-995 | when the Map entry is gone nothing is pending or active |
| PromiseQueue.OperationQueue.EnqueueOperation | packages/catalog/src/ddlSync.ts:955-971 | a new operation is chained behind the tail found in the Map |
| DdlSyncQueues.LifecycleIsTheChain | packages/catalog/src/ddlSync.ts:955-986 | over any run of the protocol, its waiting lifecycle operations are, in order, those behind the active one in the queue that a promise chain started empty refines |
| DdlSyncQueues.StepAccompanied | packages/catalog/src/ddlSync.ts:955-986 | each step of the protocol is accompanied by steps of that chain: what it queues is enqueued, what it starts had its predecessor settled, what ends is finished |
| IndexTheorems.TransactionalPublication | packages/catalog/src/indexController.ts:1244-1332 | after any steps of any scopes, whatever failed or was cancelled, a scope without an active run has a daemon source set and a published entry that agree with its registry, both absent without one |
| IndexTheorems.FailedRunsRestore | packages/catalog/src/indexController.ts:1326-1419 | a run that ends without having committed leaves the daemon and the published entry as they were when it began |
| IndexTheorems.OnlyCurrentRunsOverwrite | packages/catalog/src/indexController.ts:1298-1324 | `registries` is overwritten only in the step in which the run checked that its epoch is current, that it is not cancelled and, outside refreshes, that the connection is up; with the content it read, its source set, the generation of the daemon's answer and a new identity |
| IndexTheorems.OvertakenRunsAreSilent | packages/catalog/src/indexController.ts:1004-1019 | a run overtaken by a newer refresh epoch never overwrites the registry, whatever happens until it ends |
| IndexTheorems.StaleMarkRemoval | packages/catalog/src/indexController.ts:1004-1019 | a full refresh removes the stale mark only while its epoch is the latest, and publishes its own registry with it |
| IndexTheorems.RunsEnd | packages/catalog/src/indexController.ts:1086-1166 | every answer brings a run nearer its end, the fallback of an incremental update included |
| IndexTheorems.MutationsAreSerial | packages/catalog/src/indexController.ts:1653-1669 | source mutations of different scopes never overlap, and the one in progress can always go on |
| IndexTheorems.AuthoringSnapshotIsFresh | packages/catalog/src/indexController.ts:428-459 | after any steps: what is answered shows the content and generation of the current registry and tells whether it is stale |
| IndexTheorems.GenerationIsAnswered | packages/catalog/src/indexController.ts:1298-1324 | the registered generation is the one the daemon answered when its symbols were read |
| IndexTheorems.CancelledRunsAreSilent | packages/catalog/src/indexController.ts:904-922 | a cancelled run never overwrites the registry, whatever happens until it ends |
| IndexRuns.JobsWaitInOrder | packages/catalog/src/indexController.ts:926-947 | a new job joins the end of its scope's queue, the run that starts is the first of it, and nothing else moves a job |
| IndexRuns.EarlyStopsLeaveTheDaemon | packages/catalog/src/indexController.ts:1244-1296 | a run that is overtaken before it holds the lock, or cancelled before it waits for it, leaves daemon, published entry, registry and stale mark alone until it ends |
| IndexRuns.StopsAtOnce | packages/catalog/src/indexController.ts:1244-1296 | such a run ends with its next answer at each of those stages |
| IndexRuns.RollbackEndsWithGeneration | packages/catalog/src/indexController.ts:1383-1419 | after a rollback the registry has its content and the daemon's generation |
| IndexRuns.CacheIsUsed | packages/catalog/src/indexController.ts:428-459 | asked again while nothing happens the cache answers itself |
| IndexRuns.CacheFollowsTheScope | packages/catalog/src/indexController.ts:428-459 | the cached snapshot is dropped when the scope is marked stale and when a registry is published, and only asking fills it |
| IndexPublication.NextKeeps | packages/catalog/src/indexController.ts:926-1419 | every step of a scope keeps daemon, published entry, registry and run consistent |
| IndexMarks.MarkIsTakenIff | packages/catalog/src/indexController.ts:1059-1079 | a requested refresh can lose its stale mark before it starts exactly when the active run is incremental, or is a `runIndex` that has committed |
| IndexMarks.OlderRunTakesMarkIff | packages/catalog/src/indexController.ts:1168-1225 | it loses it to a catalog read before the request exactly when a run other than a full refresh has committed at the request |
| IndexMarks.WhoTakesTheMark | packages/catalog/src/indexController.ts:1004-1019 | the mark goes only with such a committed run, whose registry then stands, or with a full refresh newer than the one that waits, to which an incremental run fell back |
| IndexMarks.CommittedRunTakesTheMark | packages/catalog/src/indexController.ts:1128-1130 | once committed, such a run takes the mark with its next answer, whatever happens before it |
| IndexMarks.OlderRunsOccur | packages/catalog/src/indexController.ts:1059-1079 | both kinds of run get there from an empty scope |
| IndexMarks.FallsBack | packages/catalog/src/indexController.ts:1227-1242 | every incremental run that has not committed can fall back to a full refresh of a newer epoch |
| IndexReads.EveryRunRegistersLaterRead | packages/catalog/src/indexController.ts:1086-1166 | whatever job started it: a run that commits has registered a catalog whose query was answered after the run had started; for a synchronisation asked to be full, or without a registry, that is the full catalog, and an incremental one is patched onto the registry it found |
| IndexReads.SynchronisationKeepsItsMode | packages/catalog/src/indexController.ts:1168-1242 | a synchronisation asked to be full, or without a registry, is a full refresh of the newest epoch in every state until it ends; over a registry and not asked to be full it is incremental until it fails |
| IndexReads.CommitsWhatItRead | packages/catalog/src/indexController.ts:1244-1325 | the catalog a run carries to its commit is one it read itself |
| IndexController.Controller.Handle | packages/catalog/src/indexController.ts:904-1419 | any event of any scope: exactly that scope's step and its place in the lock's queue; every scope without an active run is in sync with the daemon, one scope at most changes source sets, and only a current run overwrites a registry |
| IndexController.Controller.AdvanceScopeRefreshEpoch | packages/catalog/src/indexController.ts:1613-1617 | the scope's next epoch; no other scope changes |
| IndexController.Controller.MarkDatabaseStale | packages/catalog/src/indexController.ts:949-955 | marks the scope and drops its cached snapshot; no other scope changes |
| IndexController.Controller.EnqueueScopeRun | packages/catalog/src/indexController.ts:926-947 | the run is queued behind those of its own scope |
| IndexController.Controller.IndexPostgresDatabase | packages/catalog/src/indexController.ts:973-1001 | new epoch, stale mark and queued refresh in one step |
| IndexController.Controller.CancelDatabaseIndex | packages/catalog/src/indexController.ts:904-922 | only the active full run of the scope is cancelled |
| IndexController.Controller.SqlAuthoringSnapshot | packages/catalog/src/indexController.ts:428-454 | cache hit, rebuild or nothing, exactly as the cached step says |
| IndexController.Controller.SourceSetReplaced | packages/catalog/src/indexController.ts:1374-1382 | after the daemon accepted: published entry set, rollback armed, old name to be removed if it differs |
| IndexController.Controller.BeginRestore | packages/catalog/src/indexController.ts:1394-1410 | the rollback removes what was published instead, or goes on to restore the previous set |
| IndexController.Controller.RestorePublished | packages/catalog/src/indexController.ts:1411-1418 | the previous published entry returns, or none |
| IndexController.Controller.CommitRegistry | packages/catalog/src/indexController.ts:1298-1325 | registers the new snapshot if the run is current and not cancelled; otherwise starts the rollback |
| IndexController.Controller.AnnounceRegistry | packages/catalog/src/indexController.ts:1128-1130 | publishes and clears the stale mark, except for a refresh that is no longer the latest |
| IndexController.Controller.StartDdlSynchronization | packages/catalog/src/indexController.ts:1168-1192 | incremental on an indexed baseline, otherwise a full refresh of a new epoch |
| IndexController.Controller.FailRun | packages/catalog/src/indexController.ts:1227-1242 | a failed incremental update falls back to a full refresh of a new epoch |
| CatalogPatchTheorems.IncrementalDocumentsAreFull | packages/catalog/src/indexController.ts:1776-1790 | when the request covers every difference, the patched documents and origins are those of a full read of the new catalog |
| CatalogPatchTheorems.RefreshIncrementally | packages/catalog/src/postgresCatalog.ts:617-712 | targeted read and patch together yield the full read's documents in the same order, its origins and, when every changed edge is covered, its edges as multisets, each foreign key as often as constraints of its source reference its target, each view dependency as often as its row occurs |
| CatalogPatchTheorems.SelectedResources | packages/catalog/src/postgresCatalog.ts:745-778 | the targeted queries project exactly the resources whose kind and oid are selected |
| CatalogPatchTheorems.TableIsWhole | packages/catalog/src/postgresCatalog.ts:745-778 | a re-read table has all its columns and constraints and no others |
| CatalogPatchTheorems.ListingIsUnique | packages/catalog/src/postgresCatalog.ts:701-712 | a map of documents has one listing in URI order |
| CatalogPatchTheorems.MergeIsExactIff | packages/catalog/src/postgresCatalog.ts:83-103 | the merged edges equal the new ones exactly when, on the old edges, the relations whose edges are dropped are those whose edges were re-read |
| CatalogPatchTheorems.IncrementalEdgesAreFull | packages/catalog/src/postgresCatalog.ts:83-103 | that condition holds when no dropped relation's URI is reused and no other object shares a relation's oid |
| CatalogPatchTheorems.ReusedUriKeepsDeadEdge | packages/catalog/src/indexController.ts:1784-1797 | it fails for a dropped and recreated table: a concrete request keeps the dead foreign key |
| CatalogPatchTheorems.SharedOidDropsLiveEdge | packages/catalog/src/indexController.ts:1784-1797 | it fails for a dropped schema with the oid of a table: the table's foreign key disappears from the patched edges |
| CatalogRows.FullReadEdges | packages/catalog/src/postgresCatalog.ts:591-608 | a full read has each foreign key from the table that holds the constraint to the one it references, as often as there are such constraints, and each view dependency from the view to the relation it reads, as often as there are such rows |
| CatalogRows.EdgesAreRows | packages/catalog/src/postgresCatalog.ts:591-608 | so has the snapshot of an incremental read of the same catalog |
| CatalogRows.PatchEdges | packages/catalog/src/postgresCatalog.ts:678-695 | and the edges of a patch, of the rows that were read |
| CatalogRows.ForeignKeysAreConstraints | packages/catalog/src/postgresCatalog.ts:591-604 | the number of foreign keys like `e` is the number of constraints held by `e.source` that reference `e.target` with its columns |
| CatalogRows.ViewDependenciesAreRows | packages/catalog/src/postgresCatalog.ts:605-608 | the same for views |
| CatalogRows.FullReadDocuments | packages/catalog/src/postgresCatalog.ts:849-904 | each document of a full read shows one row of the catalog, with the columns and constraints of its own table, and each row is shown |
| CatalogRows.FullReadOrigins | packages/catalog/src/postgresCatalog.ts:573-590 | every object's origin is its extension, if it has one; schemas belong to the database |
| CatalogRows.RefusedExactlyWhen | packages/catalog/src/postgresCatalog.ts:617-658 | a targeted read is refused exactly for a requested URI that cannot be re-read, or a new type or index |
| CatalogEdges.EdgesAreFullIff | packages/catalog/src/indexController.ts:1776-1809 | for a request that covers the changes: the patched edges are those of a full read if and only if no old edge is kept dead, since every selected relation it touches was dropped and its URI came back and none it touches shares its oid with a dropped object, and none is lost, since it touches no selected relation but one that shares its oid with a dropped object |
| CatalogEdges.AffectedMeans | packages/catalog/src/postgresCatalog.ts:83-103 | the relations whose edges are dropped, told from the two catalogs and the request |
| CatalogEdges.RevivedMeans | packages/catalog/src/postgresCatalog.ts:83-103 | a selected relation whose edges are not dropped is gone, and something else stands under its URI |
| CatalogModel.BuildDocuments | packages/catalog/src/postgresCatalog.ts:849-904 | rows, grouped columns and constraints become the sorted documents of the catalog |
| CatalogModel.CollectTables | packages/catalog/src/postgresCatalog.ts:861-878 | each column and constraint is handed to its own table, and only if that table was read |
| CatalogModel.SortSorts | packages/catalog/src/postgresCatalog.ts:902 | the sort keeps the documents and orders them by URI |
| CatalogModel.SortedIsUnique | packages/catalog/src/postgresCatalog.ts:701-712 | with one document per URI the sorted order is unique |
| CatalogPatch.ReadCatalogDocuments | packages/catalog/src/postgresCatalog.ts:617-696 | refuses exactly the requests the source refuses; otherwise the patch of the selected rows |
| CatalogPatch.CollectIds | packages/catalog/src/postgresCatalog.ts:634-658 | the ids to query, in order, or a full refresh for a type or an index |
| CatalogPatch.ApplyCatalogPatch | packages/catalog/src/indexController.ts:1776-1809 | documents, origins and edges of the registry after the patch, listed in URI order |
| CatalogPatch.RemoveDocuments | packages/catalog/src/indexController.ts:1784-1788 | the removed URIs leave both Maps and their oids are collected |
| SourceProvider.BuildResourceIndex | packages/catalog/src/postgresSourceProvider.ts:49-76 | each key leads to a document of that kind and oid; only documents without a recognisable symbol are missing |
| SourceProvider.ChangedResources | packages/catalog/src/postgresSourceProvider.ts:78-138 | gives up exactly on extension objects, unknown kinds, dropped resources without a mapping, dropped constraints without a changed relation and empty batches; otherwise the distinct changed and new resources |
| SourceProvider.DirectDocumentUris | packages/catalog/src/postgresSourceProvider.ts:25-47 | the selected documents are exactly those of the changed resources and the known ones that use their symbols, over all pages; the new resources are exactly those the batch contributes |
| SourceProvider.NamedObjectsAreReread | packages/catalog/src/postgresSourceProvider.ts:78-138 | every object an applied batch names is re-read, through its indexed document or as a new resource |
| ByteSplices.ApplyByteInjections | packages/coverage/src/syntaxInstrumenter.ts:81-109 | inserting from the greatest offset down at original offsets equals the simultaneous insertion from left to right; refused exactly for an offset outside the source |
| ByteSplices.Erasure | packages/coverage/src/syntaxInstrumenter.ts:81-109 | cutting the inserted texts out of the result returns the source |
| ByteSplices.WeaveInsertsEachOnce | packages/coverage/src/syntaxInstrumenter.ts:81-109 | every injection is inserted exactly once |
| ByteSplices.WeaveInserts | packages/coverage/src/syntaxInstrumenter.ts:98-103 | at each offset stand that offset's texts in stable order and no others |
| ByteSplices.SortIsStable | packages/coverage/src/syntaxInstrumenter.ts:99-100 | the sort by order is a stable permutation |
| ByteSplices.RangeErasure | packages/coverage/src/syntaxService.ts:179-186 | cutting the texts out of a source with one instrumented range returns the whole source |
| ByteSplices.GroupByOffset | packages/coverage/src/syntaxInstrumenter.ts:83-94 | the groups of the Map are the injections of each offset in order of arrival |
| Instrumenter.InstrumentBody | packages/coverage/src/syntaxInstrumenter.ts:11-29 | succeeds exactly for an error-free analysis, placed points within the source and a safe run id; the body is then the insertion of one probe a point |
| Instrumenter.ProbeNamesItsPoint | packages/coverage/src/syntaxInstrumenter.ts:31-127 | the bytes inserted for a point raise one message that is read back as that point: in front of its statement or loop, as a new ELSE, or behind its loop, with the indentation of its line kept |
| Instrumenter.MessagesTellPoints | packages/coverage/src/syntaxInstrumenter.ts:125-127 | the same message means the same point, and no message belongs to another run |
| CoverageProbes.InstrumentRoutine | packages/coverage/src/syntaxService.ts:59-95 | analysis and instrumentation together: one probe for each point of the walk, or nothing at all |
| CoverageProbes.NumberIsId | packages/coverage/src/syntaxInstrumenter.ts:31-65 | the instrumenter numbers a point as its id does |
| CoverageProbes.EveryStatementRaises | packages/coverage/src/syntaxInstrumenter.ts:11-65 | every labelled statement of an instrumented routine raises, in front of itself, the message of a point of its own |
| CoverageProbes.EveryBranchRaises | packages/coverage/src/syntaxInstrumenter.ts:31-65 | so does every branch of its tree, in its own form |
| Instrumenter.EveryPointProbedOnce | packages/coverage/src/syntaxInstrumenter.ts:11-29 | every point contributes exactly one probe and nothing else is inserted |
| Instrumenter.ProbesMeetInOrder | packages/coverage/src/syntaxInstrumenter.ts:31-65 | where probes meet, each is a point's, loop entries come first and the others in the order of their numbers |
| Instrumenter.EmbeddedPlpgsqlBody | packages/coverage/src/syntaxService.ts:115-143 | the body is the one place of the one container where the source stands, and is missing exactly when there is none |
| Instrumenter.CountNewlinesBefore | packages/coverage/src/syntaxService.ts:145-151 | the number of newlines before the body |
| Instrumenter.Instrument | packages/coverage/src/syntaxService.ts:59-95 | succeeds exactly when the place of the source is unique and its points can be probed; the DDL then differs from the original only by the woven body in that place, and cutting the probes returns the original |
| PrimaryKeyNullability.StatementDeclarations | packages/catalog/src/postgresSyntaxStatements.ts:38-68 | accepts exactly the outlines whose nodes tile the source with blanks between them, and returns their declarations |
| PrimaryKeyNullability.TiledAreApart | packages/catalog/src/postgresSyntaxStatements.ts:38-68 | tiled declarations follow one another without overlap, whichever kinds are kept |
| PrimaryKeyNullability.NotNullOffsets | packages/catalog/src/postgresPrimaryKeyNullability.ts:31-54 | collects exactly the ends of primary-key columns that do not say NOT NULL |
| PrimaryKeyNullability.PrimaryKeyStatement | packages/catalog/src/postgresPrimaryKeyNullability.ts:31-64 | a statement becomes its simultaneous insertion of NOT NULL at those ends |
| PrimaryKeyNullability.SpliceStatements | packages/catalog/src/postgresPrimaryKeyNullability.ts:19-28 | replacing statements from the last to the first equals inserting all marks at once |
| PrimaryKeyNullability.MarksAreColumnEnds | packages/catalog/src/postgresPrimaryKeyNullability.ts:31-64 | what is inserted is the text `NOT NULL` on a new line, exactly where the definition of a column ends that a primary key of its table names, or that is one itself, and that does not say so |
| PrimaryKeyNullability.LacksMeans | packages/catalog/src/postgresPrimaryKeyNullability.ts:31-54 | which columns these are, told from the nodes of the tree |
| PrimaryKeyNullability.NamesAreFolded | packages/catalog/src/postgresPrimaryKeyNullability.ts:66-71 | a quoted name is read back as its text, any other folded to lower case, without the blanks around it |
| PrimaryKeyNullability.DeclarationIsOnly | packages/catalog/src/postgresSyntaxStatements.ts:61-64 | a statement's declaration is the only child of its first `stmt` that is no comment |
| SyntaxTrees.KindIsFound | packages/sql/src/analysis/syntaxNodes.ts:27-35 | the nodes found are exactly those of the kind within the tree |
| SyntaxTrees.ChildIsFirst | packages/sql/src/analysis/syntaxNodes.ts:10-16 | the child found is the first of its kind |
| PrimaryKeyNullability.ExplicitPrimaryKeyNullability | packages/catalog/src/postgresPrimaryKeyNullability.ts:11-29 | cutting the inserted texts out of the result returns the source; refused exactly for an incomplete outline |
| SyntaxAnalyzer.AnalyzeCoverage | packages/coverage/src/syntaxAnalyzer.ts:56-97 | the statement points are exactly the labelled statements, the branch points and warnings exactly the branches of the tree, each with its lines and offset, in walk order with dense ids; error-free exactly when the tree is usable and no line holds two sites, and then site keys identify statements |
| SyntaxAnalyzer.Analyzer.AnalyzeBlock | packages/coverage/src/syntaxAnalyzer.ts:99-108 | body, then handlers, push what the walk of the block gives |
| SyntaxAnalyzer.Analyzer.AnalyzeStatements | packages/coverage/src/syntaxAnalyzer.ts:110-115 | each statement is walked under its own index |
| SyntaxAnalyzer.Analyzer.AnalyzeStatement | packages/coverage/src/syntaxAnalyzer.ts:117-154 | nested block, or own point and then the statement's shape |
| SyntaxAnalyzer.Analyzer.AnalyzeIf | packages/coverage/src/syntaxAnalyzer.ts:169-240 | branch points, sections and the IF false point in this order, with the source's counting of sections |
| SyntaxAnalyzer.Analyzer.AnalyzeCase | packages/coverage/src/syntaxAnalyzer.ts:242-294 | branch points, the missing-ELSE warning and the sections |
| SyntaxAnalyzer.Analyzer.AnalyzeLoop | packages/coverage/src/syntaxAnalyzer.ts:296-329 | entry and exit points, or the empty-loop warning, and the body |
| SyntaxAnalyzer.Analyzer.AnalyzeHandlers | packages/coverage/src/syntaxAnalyzer.ts:104-107 | each handler is walked under its index |
| SyntaxAnalyzer.DetectAmbiguousLineSites | packages/coverage/src/syntaxAnalyzer.ts:394-417 | one error for each line that holds two different site keys and for no other line |
| SyntaxAnalyzer.StatementPointsAreStatements | packages/coverage/src/syntaxAnalyzer.ts:117-154 | the statement points are exactly the labelled statements in walk order |
| SyntaxBranches.BranchesAreTold | packages/coverage/src/syntaxAnalyzer.ts:99-380 | the branch points and warnings, told from the tree alone: one before the first statement of each non-empty section, an ELSE where an IF without one falls through, entry and exit of each non-empty loop but no exit of a plain LOOP, a warning for a CASE without ELSE and an empty loop |
| SyntaxAnalyzer.PointsAreTheRoutines | packages/coverage/src/syntaxAnalyzer.ts:56-97 | the points of an analysis are those two lists |
| SyntaxAnalyzer.IdsAreDistinct | packages/coverage/src/syntaxAnalyzer.ts:376-392 | dense ids are distinct |
| SyntaxAnalyzer.OneSitePerLine | packages/coverage/src/syntaxAnalyzer.ts:394-417 | in an error-free analysis two probes have the same site key exactly when they stand on the same statement, and two probes on one line do |
| SyntaxAnalyzer.ShiftedRoutinesAreRefused | packages/coverage/src/syntaxAnalyzer.ts:394-417 | a routine in which site keys fail to identify statements has an ambiguous line, so it is never instrumented |
| SyntaxClashes.BlockClashes | packages/coverage/src/syntaxAnalyzer.ts:99-347 | wherever keys are shifted, two probes stand on one line under different keys |
| SiteKeys.SiteKeysIdentifyStatements | packages/coverage/src/syntaxAnalyzer.ts:169-347 | two probes have the same site key exactly when they stand on the same statement, if and only if no ELSIF or WHEN clause behind one without statements begins with a statement that has a probe of its own |
| SiteKeys.KeyTextIsInjective | packages/coverage/src/syntaxAnalyzer.ts:110-115 | different paths have different site-key texts |
| SiteKeys.ShiftedClauseFails | packages/coverage/src/syntaxAnalyzer.ts:184-225 | the condition can fail: a concrete IF with an empty ELSIF violates it |
| SyntaxSites.ClausesIdentifyIff | packages/coverage/src/syntaxAnalyzer.ts:184-225 | for a list of clauses: keys and addresses agree exactly without such a shift |
| SyntaxSites.BlockIdentifies | packages/coverage/src/syntaxAnalyzer.ts:99-154 | the same for a whole block, by induction over the tree |
| Markers.ParseIsExact | packages/coverage/src/markers.ts:4-23 | parsing finds a point exactly in the message that formatting gives for it |
| Markers.OneRunPerMessage | packages/coverage/src/markers.ts:14-23 | a message belongs to at most one run |
| Markers.NeverMatchesAnotherRun | packages/coverage/src/markers.ts:14-23 | another run's marker is never mistaken for one's own |
| NoticeCounting.SuiteListener.OnNotice | packages/coverage/src/runner.ts:568-580 | after any notices each counter is the number of its own marker notices |
| NoticeCounting.DeltaIsIncrease | packages/coverage/src/delta.ts:11-29 | a delta is exactly the increase of a counter, and nothing where it fell |
| NoticeCounting.DeltasTelescope | packages/coverage/src/delta.ts:11-29 | over growing counters the successive deltas add up to last minus first |
| NoticeCounting.DeltaCountsMarkers | packages/coverage/src/delta.ts:5-29 | between two readings the delta of a point is the number of its markers received in between |
| DelimitedText.ParseDelimitedText | packages/rows/src/export.ts:276-328 | the scanner loop computes the reader below |
| DelimitedText.RoundTrip | packages/rows/src/export.ts:276-328 | with the final newline reading returns the written rows |
| DelimitedText.RoundTripWithoutNewline | packages/rows/src/export.ts:276-328 | without it, exactly when the last row is not a single empty cell; that row alone is lost |
| DelimitedText.WrittenRowsComeBack | packages/rows/src/export.ts:172-191 | header, neutralised values and NULL texts included |
| DelimitedSpellings.CellsAreWritten | packages/rows/src/export.ts:172-191 | each cell stands in its place behind the header, a NULL as the chosen text, every text as it is or, exactly if it opens a formula and may not, behind an apostrophe |
| DelimitedSpellings.QuotedExactlyWhen | packages/rows/src/export.ts:265-269 | a text is quoted exactly when it holds the delimiter, a quote or a line break |
| DelimitedSpellings.AnySpellingIsRead | packages/rows/src/export.ts:276-328 | any text of fields, in quotes or not, with quotes inside plain fields and text behind closing quotes, between delimiters and behind LF, CR or CRLF, is read as its values, line by line |
| DelimitedSpellings.LastLineNeedsNoEnd | packages/rows/src/export.ts:276-328 | a last line without a line end is read as well, unless it is a single empty field |
| DelimitedText.ScanField | packages/rows/src/export.ts:265-269 | one field, quoted or not, is read back as its value |
| ExportChunks.ExportedChunks | packages/rows/src/export.ts:142-168 | the chunks concatenate to the pieces, less one trailing newline unless chosen, and each is within the bound |
| ExportChunks.PairsStayTogether | packages/rows/src/export.ts:156-163 | no two neighbouring chunks of a piece split a surrogate pair, and the first is as long as it may be or one unit shorter in front of a pair |
| ExportChunks.ChunksKeepText | packages/rows/src/export.ts:156-165 | cutting loses and adds nothing |
| ExportChunks.BoundOfOneStalls | packages/rows/src/export.ts:156-163 | with a bound of one code unit the generator stands still exactly before a high surrogate |
| ExportChunks.PiecesAreLines | packages/rows/src/export.ts:172-191 | the writer's pieces are the lines of the rows it writes |
| ExportChunks.ExportIsReadBack | packages/rows/src/export.ts:142-191 | what is exported in chunks is read back, with the exact exception above |
| OffsetSession.OffsetResultSession.constructor | packages/rows/src/offsetQuery.ts:150-178 | the first rows up to a page size clamped to 20..1000 |
| OffsetSession.OffsetResultSession.AppendPage | packages/rows/src/offsetQuery.ts:267-282 | one more page behind the loaded rows; the total is set only when no row follows |
| OffsetSession.OffsetResultSession.MoveNext | packages/rows/src/offsetQuery.ts:224-233 | moves on, and reads PostgreSQL exactly when the snapshot before said so |
| OffsetSession.OffsetResultSession.MovePrevious | packages/rows/src/offsetQuery.ts:218-222 | moves back within the retained pages |
| OffsetSession.OffsetResultSession.LoadAllRows | packages/rows/src/offsetQuery.ts:235-251 | ends with every row of the result once in one page; reads exactly when the snapshot before said so; a failed read keeps what was loaded |
| OffsetSession.OffsetResultSession.CurrentSnapshot | packages/rows/src/offsetQuery.ts:184-216 | the snapshot shows the rows of the whole result its page numbers say and the true total, and tells which moves would read PostgreSQL |
| OffsetSession.SnapshotShowsItsRows | packages/rows/src/offsetQuery.ts:184-216 | the rows shown are those the page numbers say, of the whole result, and the count is the true total |
| OffsetSession.NextReadsExactlyWhen | packages/rows/src/navigation.ts:40-53 | `navigationReadsPostgres` for the next page is true exactly from the last retained page of a result that goes on |
| OffsetSession.LoadAllReadsExactlyWhen | packages/rows/src/navigation.ts:40-53 | for loading all, exactly while the total is unknown |
| OffsetSession.OffersExactly | packages/rows/src/navigation.ts:28-37 | a reader is offered exactly the moves that show other rows than those on screen, while nothing runs and the result is open |
| OffsetSession.AppendKeeps | packages/rows/src/offsetQuery.ts:267-282 | the pages stay contiguous and concatenate to a prefix of the whole result |
| CoverageRuns.TargetsAreDisjointUnion | packages/coverage/src/runner.ts:277-313 | the active targets are always the disjoint union of the target keys of the runs not yet cleaned up |
| CoverageRuns.RefusedExactlyWhen | packages/coverage/src/runner.ts:277-293 | a request is refused exactly when it has no routine or an invalid time limit, or a run not yet cleaned up holds its run id or one of its routines on its connection |
| CoverageRuns.LowestIsBusy | packages/coverage/src/runner.ts:278-286 | the reported oid is the lowest busy one |
| CoverageRuns.CompletedMeansEnded | packages/coverage/src/runner.ts:431-556 | a run reports completion only after its transaction was rolled back or its backend terminated or disconnected |
| CoverageRuns.EveryExitReleases | packages/coverage/src/runner.ts:431-459 | whatever is answered and whatever other runs do: an unfinished run can be continued, at most thirteen times, and then it has ended and holds neither a key nor its run id |
| CoverageRuns.EndedRunsHoldNothing | packages/coverage/src/runner.ts:455-459 | from its clean-up on, every held key and run id belongs to another run |
| CoverageRuns.ContinueKeeps | packages/coverage/src/runner.ts:315-556 | each awaited step, failure, cancellation, rollback and forced end leaves a transaction that is open only with a client, and a run that has not failed only behind an ended one |
| CoverageRuns.UpdateHolds | packages/coverage/src/runner.ts:455-459 | the step that ends a clean-up releases exactly the run's own keys and run id |
| CoverageRuns.FinishesLast | packages/coverage/src/runner.ts:542-555 | only the last step finishes a run, with a terminal state |
| CoverageRuns.NextKeeps | packages/coverage/src/runner.ts:265-556 | every step keeps the keys, the run ids and each run's transaction consistent |
| CoverageResults.CompletesExactlyWhen | packages/coverage/src/runner.ts:315-556 | a run completes exactly when nothing spoils it from its admission on: no failing answer, no abort before its tests have ended and no lost connection |
| CoverageResults.ResultIsRecorded | packages/coverage/src/runner.ts:515-556 | over any steps: a finished run has completed, was cancelled, timed out or failed exactly as its outcome, its first failure and its first abort say |
| CoverageResults.UndisturbedRunsComplete | packages/coverage/src/runner.ts:315-459 | a run that nothing disturbs completes, behind a rollback |
| CoverageResults.AdmittedIsSmooth | packages/coverage/src/runner.ts:277-313 | an admitted run starts undisturbed |
| CoverageResults.AbortedRunsTellWhy | packages/coverage/src/runner.ts:265-275 | a run first aborted while it executes ends cancelled, or timed out, as that abort said, whatever follows |
| CoverageResults.BotchedCleanupsFail | packages/coverage/src/runner.ts:431-459 | a run whose clean-up fails ends as failed, even if it was cancelled or timed out before |
| CoverageResults.AbortsAskTheBackend | packages/coverage/src/runner.ts:653-670 | an abort while the backend is known asks it to stop, and that is awaited |
| CoverageResults.StatusFits | packages/coverage/src/runner.ts:265-313 | over any steps: what is announced of a run fits its phase until it is finished |
| CoverageResults.AdmittedRunIsAnnounced | packages/coverage/src/runner.ts:277-313 | an admitted run holds exactly the keys of its own connection and routines and is announced at once |
| CoverageRunnerClass.CoverageRunner.Handle | packages/coverage/src/runner.ts:265-556 | any step of the machine: the active targets stay the disjoint union of the unfinished runs' keys, cleaned-up runs hold nothing, completion means an ended transaction |
| CoverageRunnerClass.CoverageRunner.Admit | packages/coverage/src/runner.ts:277-313 | refused exactly on malformed or taken requests, and then nothing changes; otherwise all keys and the run id are acquired, none of them held before |
| CoverageRunnerClass.CoverageRunner.Resume | packages/coverage/src/runner.ts:265-275 | one continuation brings the run nearer its end; at the clean-up its keys and run id are released, at the end its status is gone |
| Reconciliation.ReconcileEquivalentConstraints | packages/catalog/src/postgresSchemaComparison.ts:179-203 | the survivors are exactly the changes that do not cancel and are no artefacts, in order |
| Reconciliation.PairsCancel | packages/catalog/src/postgresSchemaComparison.ts:192-200 | for every structure key exactly min(removed, added) removals and as many additions cancel |
| Reconciliation.SurvivorsAreDifference | packages/catalog/src/postgresSchemaComparison.ts:179-203 | the survivors of a key are the multiset difference of its additions and removals |
| Reconciliation.OthersSurvive | packages/catalog/src/postgresSchemaComparison.ts:201-203 | all other changes survive untouched, in order |
| Reconciliation.IndexAdditions | packages/catalog/src/postgresSchemaComparison.ts:183-190 | the positions of each key's additions, in order |
| Reconciliation.StructuralReferenceDifferences | packages/catalog/src/postgresSchemaComparison.ts:296-339 | retargeted references, then for each key in order exactly the absolute balance with its sign |
| Reconciliation.BalanceReferences | packages/catalog/src/postgresSchemaComparison.ts:300-329 | the balance of each one-sided key is new minus gone |
| Reconciliation.EmittedCount | packages/catalog/src/postgresSchemaComparison.ts:330-338 | what a key emits, counted by sign |
| ReferenceCounts.LastAdditionsCancel | packages/catalog/src/postgresSchemaComparison.ts:192-200 | of the additions of a key the last ones cancel, of its removals the first ones |
| ReferenceCounts.BalanceCounts | packages/catalog/src/postgresSchemaComparison.ts:296-329 | a balance is the number of index members that only name the key's target as new, less that of those that only name it as old |
| ReferenceCounts.DifferencesAreDue | packages/catalog/src/postgresSchemaComparison.ts:296-339 | every difference counted: a retargeting once for each index member that names both targets, additions and removals as often as the keys of that target are out of balance |
| SqlNormaliser.NormalizeOutsideQuotedSql | packages/catalog/src/postgresSchemaComparison.ts:220-250 | the loop computes the normal form |
| SqlPieces.NormalFormIsTold | packages/catalog/src/postgresSchemaComparison.ts:220-250 | the normal form of a text made of words, literals and blanks: literals as they are, words in lower case, and one blank for blanks between two pieces unless a parenthesis or a comma stands beside it |
| SqlPieces.EveryNormalForm | packages/catalog/src/postgresSchemaComparison.ts:220-250 | every text is made of such pieces, an open literal at its end included |
| SqlNormaliser.NormalizeIsIdempotent | packages/catalog/src/postgresSchemaComparison.ts:220-250 | normalising twice is normalising once |
| SqlNormaliser.NormalIsStable | packages/catalog/src/postgresSchemaComparison.ts:220-250 | every normal form is lower-cased outside quotes and keeps a single blank only where normalising would |
| SqlNormaliser.StableIsNormal | packages/catalog/src/postgresSchemaComparison.ts:220-250 | such a text is its own normal form |
| SqlNormaliser.QuotedTextIsCopied | packages/catalog/src/postgresSchemaComparison.ts:220-250 | quoted text, doubled quotes included, is copied unchanged |
| WrappingParentheses.HasWrappingParentheses | packages/catalog/src/postgresSchemaComparison.ts:252-270 | true exactly when the first parenthesis is closed by the last character outside quotes and not before |
| WrappingParentheses.InnerIsBalanced | packages/catalog/src/postgresSchemaComparison.ts:216-218 | what wrapping parentheses hold is balanced |
| WrappingParentheses.StripWrapping | packages/catalog/src/postgresSchemaComparison.ts:216-218 | the loop ends, strips matching pairs only, to an expression that none wraps, and keeps it balanced |
| WrappingParentheses.NormalizeStructuralSignature | packages/catalog/src/postgresSchemaComparison.ts:209-218 | one key for each signature: the normal form, of a CHECK exactly the pairs that wrap its expression removed, what is left balanced whenever one was; the key of a key is that key |
| WrappingParentheses.StripsExactlyThePairs | packages/catalog/src/postgresSchemaComparison.ts:216-218 | what the loop leaves is the expression without exactly its wrapping pairs, balanced whenever one went |
| WrappingParentheses.KeyIsItsOwnKey | packages/catalog/src/postgresSchemaComparison.ts:209-218 | normalising a key again changes nothing |
| DependencyClosure.QueryDependencyCatalog | packages/coverage/src/pgtap.ts:386-428 | the worklist ends with the routines of exactly the names reachable from the tests' calls, cycles included |
| DependencyClosure.ResolveSourceRoutines | packages/coverage/src/pgtap.ts:475-499 | exactly the routines a test reaches, through helpers in test schemas too, that lie outside those schemas; each once |
| DependencyClosure.SourceRoutinesOfTests | packages/coverage/src/pgtap.ts:386-499 | both together, for every test |
| DependencyClosure.ClosedIsReachable | packages/coverage/src/pgtap.ts:386-428 | a closed set of reachable names is the set of all reachable names |
| DependencyClosure.RecordRoutines | packages/coverage/src/pgtap.ts:401-424 | one round records the queried routines and what they call |
| DependencyClosure.VisitName | packages/coverage/src/pgtap.ts:490-495 | one name's routines, each once, and their calls |
| Framing.FramingIsIndependentIff | packages/sql/src/localCodeMonikerSyntax.ts:199-224 | every split of an output settles the same requests with the same results in the same order and leaves the same buffer as the whole output, if and only if no line that throws has a complete line behind it |
| Framing.SplitsAgree | packages/sql/src/localCodeMonikerSyntax.ts:199-224 | the same for a worker that holds an unterminated tail |
| Framing.ThrowMakesSplitsDiffer | packages/sql/src/localCodeMonikerSyntax.ts:207-213 | a throwing line in front of a complete line makes two splits differ |
| Framing.DrainEmpties | packages/sql/src/localCodeMonikerSyntax.ts:199-205 | without such a line only unterminated text stays in the buffer |
| Framing.DrainLeavesTail | packages/sql/src/localCodeMonikerSyntax.ts:199-205 | what stays is a suffix of the buffer, from its start or from behind a newline |
| Framing.SettlesAtMostOnce | packages/sql/src/localCodeMonikerSyntax.ts:175-232 | over responses, timeouts, failures and disposal each request settles at most once and its outcome stays |
| Framing.EndSettlesAll | packages/sql/src/localCodeMonikerSyntax.ts:175-180 | a failed child or disposal leaves no request unsettled; a timeout rejects its own request and no other |
| FramingAnswers.AnswersSettle | packages/sql/src/localCodeMonikerSyntax.ts:199-224 | draining settles a pending request exactly if a complete line with no throwing line in front answers it, with the error's message or the result of the first such line |
| Framing.NullStrandsTheResponse | packages/sql/src/localCodeMonikerSyntax.ts:207-213 | JSON `null` and a response in one chunk leave the request waiting; in two chunks it settles |
| Framing.CodeMonikerSyntaxWorker.OnStdout | packages/sql/src/localCodeMonikerSyntax.ts:199-224 | the loop handles every complete line of the buffer |
| Framing.CodeMonikerSyntaxWorker.MakeRequest | packages/sql/src/localCodeMonikerSyntax.ts:182-193 | a fresh id is pending, or nothing after disposal |
| Framing.CodeMonikerSyntaxWorker.RejectAll | packages/sql/src/localCodeMonikerSyntax.ts:226-232 | all pending requests are rejected, in order |
| Framing.CodeMonikerSyntaxWorker.Dispose | packages/sql/src/localCodeMonikerSyntax.ts:175-180 | disposal rejects what is pending, once |

## Left out

- Schema synchronisation is one connection's slice of the Maps; runtimes are values in a sequence instead of shared objects, a saved connection keeps its database, and the transaction labels kept for diagnostics are not modelled.
- A notification held back during startup is stamped when its runtime enters the listeners, so receipts before that moment are not tracked; disposal and the removal of the connection end tracking.
- Notification payloads are usable or rejected; JSON parsing and the event-trigger SQL are not modelled.
- `validateSupportSchema` trims ASCII blanks only.
- Object identities join the object type and identity with a colon, as the source does, so two objects whose joined texts agree are one.
- Index state listeners do not re-enter, the session stays open, the controller is not disposed during a run, and the daemon calls of a rollback succeed; a failed `sources.replace` leaves the daemon as it was.
- Catalog SQL is the filter it applies to the rows; a document's text is the value it is rendered from, and a revision is the value it hashes, so `renderTable`, `renderColumn` and the row decoders are not modelled.
- `localeCompare` is a total order on URIs and reference keys.
- That a DDL batch covers every changed document is a hypothesis of the incremental theorems; mixed batches with index DDL can violate it.
- Symbol usages are given as the answer of the paged query; the Code Moniker daemon and its parser are not modelled.
- PL/pgSQL trees hold what `directChild`, `plpgsqlStep` and `descendantsWithinBlock` return; how these read the generic tree is not modelled; a `proc_stmt` starts on the line of the statement it holds, its first child.
- Byte offsets are those of a tree and never split a UTF-8 character; indentation and trimming know ASCII blanks only.
- Instrumenter.Instrument: does not model the parse of the original and of the generated DDL, only what becomes of the bytes.
- PrimaryKeyNullability.ExplicitPrimaryKeyNullability: takes the parses of the statements as given, because the parser is outside this model.
- NoticeCounting.SuiteListener.OnNotice: run ids are safe and distinct, as the runner makes them.
- CoverageRuns treats the loops over a run's routines as one operation each and keeps no error texts; a status entry of a reused run id may be dropped when an older run of that id reports.
- Timers and clocks are nondeterministic steps; durations are not modelled.
- DelimitedText.RoundTrip: the delimiter is one code unit, no quote and no line break, as in both presets; a longer one that overlaps itself can run into the text before it.
- Export shapes other than delimited text, and the final sort of source routines, are not modelled.
- OffsetSession.OffsetResultSession.constructor: the first read has answered; row formatting, cell bounds and the check of the result shape are not modelled, because the source is stable.
- WrappingParentheses.NormalizeStructuralSignature: takes the signature without its constraint name; the regular expression that removes it is not modelled.
- SqlNormaliser uses only laws of lower case and white space, character by character.
- Framing: what the runtime does with an exception that leaves `onStdout`, and stopping the child process, are not modelled.
- DependencyClosure takes the names each routine calls as given.
