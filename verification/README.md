# metrics-service: retry-safe delivery, storage and generated Reset methods in Dafny

metrics-service is an agent that collects gauges and counters and reports them in batches, and a server that
keeps them in memory with a JSON file behind it, or in PostgreSQL. Every batch carries an id that stays with it
through all retries, and the server keeps a receipt per id, so that a report counts once however often it is sent.
This project models that protocol and the code it rests on, and proves what it promises. It also models the
generator of `Reset` methods, the middleware that shapes responses, and shutdown.

`dafny verify dfyconfig.toml` checks everything.

## How the model is laid out

- **Values.** `Metrics` has the metric, the two-map view of a store, Go's wrapping `int64` and the effect of a batch;
  a float64 is a finite number, an infinity or NaN. `Snapshots` has the image a server keeps (maps and receipts), the
  update guarded by a receipt, and the file form of an image. A map iteration is any order: `IsListing` and
  `IsFileSnapshot` hold of every order.
- **The code that changes state.** `AgentStore.Store`, `ReportAgent.Agent`, `Retry.DoWithSleeper`,
  `MemoryStorage.MemStorage`, `Service.Persistence`, `Service.MetricsService`, `PostgresStorage.Storage`, the gRPC and
  HTTP adapters in `Transport`, the writers in `Responses` and `ResetCompiler.Generator` are classes and loops with
  the source's fields and branches, each specified by functions that the rest of the project reasons about.
- **The delivery protocol.** `AgentProtocol` and `ServerProtocol` are step relations: one step is one section under a
  mutex, one channel operation, one network event or one half of a save. `Delivery` puts both around a network that
  keeps every message ever sent and may deliver it any number of times, in any order or never, and adds other
  clients and server crashes at any moment. `AgentInvariant`, `ServerProtocol`, `Delivery` hold the invariants;
  `DeliveryTheorems`, `AgentDrain`, `AgentReports`, `AgentHistory` and `EndToEnd` say what follows for every run.
- **PostgreSQL.** `PostgresRows` has one row per name and the two upserts, and compares the table with the maps;
  `PostgresTx` interleaves transactions statement by statement; `PostgresStorage` is one session with its retries.
- **Reset.** `ResetTypes` has types, values and access paths; `ResetNames` printed type names and Go's scopes;
  `ResetCompiler` the generator; `ResetMeaning` an interpreter of the emitted code and its correctness; `ResetEffect` what a
  reset keeps and clears.
- **Shutdown.** `Shutdown` interleaves one or two transports, their handlers, the periodic saver and the closing sequence.

## What is established

1. *Conservation.* In every state of every run, the increments of a counter are, modulo 2^64, what the agent's store
   holds, plus the agent's batches the server has no receipt for, plus the server's value, net of other clients
   (`CountersConserved`). Crashes are included: with synchronous saves no acknowledged batch is ever lost
   (`AcknowledgedIsDurable`), without them the file is always the state after some prefix of the updates, which only
   grows (`FileIsAPrefix`, `FileOnlyGrows`), and a restart begins with exactly that (`RestartHolds`).
2. *Custody and bounds.* Each batch is acknowledged or in exactly one hand, unchanged (`BatchCustody`); the channel and
   the number of sends respect the rate limit; draining takes at most 8 sends per worker and cannot get stuck.
3. *The end of Run.* If `Run` returns nil, the server has exactly the agent's totals and latest gauges
   (`ServerMatchesAgent`), which are the sums of all increments and the values last set (`MeasuredIsStored`), whatever copies
   of old requests are still under way; and it returns nil exactly if no collector and no send of the final report failed.
4. *Keys.* Over HTTP and gRPC, the same request again changes nothing and another one under its key is a conflict
   (`PostAgain`, `CallAgain`). A retry by the agent is never answered with a conflict, and no key is audited twice.
5. *PostgreSQL.* Interleaved transactions with lost replies and retries leave what the committed updates give one
   after another, each key once, and what callers were told about a key stays true.
6. *Reset.* Generated methods do exactly what is documented to every finite value, or else a name in them clashes and
   they do not compile; which names clash is decided from the struct and its package.
7. *Responses and shutdown.* The stacked writers act as a plain recorder; the final save comes once, last, and success
   means that the file restores to memory; which failures the answer reports is stated both ways (`AnswerIff`).

Some promises hold only under a condition, which is then stated both ways:

- The getters of the PostgreSQL and in-memory stores agree exactly if no name is used both as a gauge and as a counter
  (`StoresAgreeIff`); PostgreSQL rejects a sum outside int64, where memory wraps, and a name that cannot be a TEXT
  primary key, which memory takes (`AcceptedIff`).
- A file restores to its image exactly if there is a metric or there are no receipts, since receipts travel on the
  first metric (`RestoreRoundTrip`). Validated batches are never empty, so a server keeps to this side.
- Snapshots can be written exactly if all gauges are finite. Both batch routes let only finite ones through, but the URL
  route accepts "NaN", after which every save fails until that gauge gets a finite value (`SavesEncodable`,
  `GaugeRouteCanBlockSaves`). Everything else about the protocol holds with such gauges too.
- `applied` does not tell whether the batch took effect. Under a new key, a successful PostgreSQL call reports applied
  exactly if no commit reply was lost before its last attempt, and an unsuccessful one has nevertheless taken effect
  exactly if a commit reply was lost (`PostgresStorage.Storage.UpdateMetricsOnce`); in the in-memory store a failed save
  has the same effect (`RetryAfterFailedSave`). An audit event is therefore published at most once, not exactly once.
- An update without a key counts once for every lost commit reply, and once more for an attempt that succeeded
  (`PostgresStorage.Storage.UpdateMetrics`).
- Generated Reset methods compile exactly if no marked struct is called `_`, none has a field called `Reset` or a type
  parameter called `rs`, no declaration of the package is called like the alias of an import, and no type name printed in
  them is lost (`ResetCompiler.FileNames`, `ResetMeaning.BuildsIff`, `ResetMeaning.ResetAsDocumented`). A name is lost if it
  is hidden where it stands, by a type parameter, the receiver `rs`, the variable of an enclosing loop, `resetter` or `ok` if
  it names a struct, or a declaration of the package if it is predeclared; or if another package does not export it or
  cannot be imported; or if it is an unexported member of an unnamed type of another package. Three inputs that fail: a
  field called `Reset` (`ResetMeaning.ResetFieldClashes`), a local struct type called `resetter`
  (`ResetCompiler.VariablesHide`), and an exported array type of another package over an unexported element
  type, which the generator unwraps (`ResetCompiler.UnexportedElementIsHidden`).
- Resetting twice is resetting once exactly if that holds of the hand-written Reset methods (`IdempotentIff`).
- The agent's reports survive the gRPC wire form exactly if no name is empty and all gauges are finite (`ReportsSurvive`).

## Model

| member | source | states |
|---|---|---|
| Metrics.WrapAdd | internal/repository/memory.go:68-81 | wrapping a counter after every increment or once at the end gives the same int64 |
| Metrics.WrapsAround | internal/repository/memory.go:68-81 | one more than the largest int64 is the smallest, and the other way round |
| Metrics.ApplyCounters | internal/repository/memory.go:68-81 | a batch moves every counter by the sum of its deltas modulo 2^64 and creates exactly the counters it names |
| Metrics.ApplyGauges | internal/repository/memory.go:68-81 | a batch adds exactly the gauges it names and leaves the others as they are |
| Metrics.CounterOrderIrrelevant | internal/repository/memory.go:68-81 | counters after a batch do not depend on the order of its entries |
| Metrics.BatchOrderIrrelevant | internal/agent/store.go:68-93 | a batch without repeated (type, name) pairs has one effect, whatever order a map iteration gave it |
| Metrics.ListingDistinct | internal/agent/store.go:64-94 | a snapshot of a store never repeats a (type, name) pair |
| Metrics.ListingMembers | internal/agent/store.go:64-94 | a snapshot holds exactly the store's gauges and counters with their values |
| Metrics.ListingDelta | internal/agent/store.go:64-94 | applying a snapshot adds to each counter exactly what the store held |
| Metrics.ListingGauge | internal/agent/store.go:64-94 | applying a snapshot leaves each of its gauges at the store's value |
| Metrics.SomeListing | internal/repository/memory.go:205-232 | every pair of maps has a snapshot |
| Retry.Drive | internal/retry/retry.go:17-33 | after k attempts, the attempts go on to the first outcome that is final, or to the fourth |
| Retry.DoWithSleeper | internal/retry/retry.go:17-33 | the loop stops at the first final outcome or the fourth attempt, and sleeps 1, 3 and 5 seconds between attempts |
| AgentStore.Store.SetGauge | internal/agent/store.go:25-29 | the gauge has the new value, nothing else changes |
| AgentStore.Store.IncCounter | internal/agent/store.go:32-36 | the counter has moved by delta modulo 2^64, nothing else changes |
| AgentStore.Store.SnapshotMetrics | internal/agent/store.go:64-94 | the result lists the store as it was; the counters are gone, the gauges stay |
| AgentStore.Store.ListGauges | internal/agent/store.go:68-78 | the loop lists every gauge once |
| AgentStore.Store.TakeCounters | internal/agent/store.go:80-92 | the loop lists every counter once and deletes it |
| ReportAgent.Agent.TakePending | internal/agent/agent.go:206-212 | everything pending is handed over at once |
| ReportAgent.Agent.Requeue | internal/agent/agent.go:214-218 | the batch is pending again, behind the others |
| ReportAgent.Agent.SendBatch | internal/agent/agent.go:325-364 | nil exactly for an empty batch, and for a prepared one of whose first four attempts one succeeds after retriable failures only |
| ReportAgent.DeliveredIff | internal/agent/agent.go:325-364 | the outcome of the retry loop, told from the attempts one by one |
| ReportAgent.FailingAt | internal/agent/agent.go:185-193 | the batches requeued are exactly the non-empty ones that do not get through |
| ReportAgent.Agent.ReportWorker | internal/agent/agent.go:303-311 | of the batches it receives, exactly those that do not get through are pending again, in order |
| ReportAgent.Agent.ReportOnce | internal/agent/agent.go:182-204 | old batches first; if one fails, exactly the failing ones are pending again and the store is untouched; otherwise the store is snapshot, sent, and pending if that fails; nil exactly if every batch, old or new, got through, and pending are exactly those that did not |
| ReportAgent.Agent.SendPending | internal/agent/agent.go:185-193 | exactly the batches whose send fails are pending again, in order |
| ReportAgent.Agent.RequeueAll | internal/agent/agent.go:291-293 | what was not pushed is pending again in order |
| ReportAgent.Agent.TakeReport | internal/agent/agent.go:279-286 | pending batches are retried before the store is snapshot into a new one |
| ReportAgent.Agent.EnqueueReport | internal/agent/agent.go:278-297 | batches are pushed in order up to the cancellation, and every other one is pending again |
| ReportAgent.SendFollows | internal/retry/retry.go:17-33 | the attempts of sendBatch are steps of the protocol |
| ReportAgent.ReportOnceIsARun | internal/agent/agent.go:182-204 | for every outcome of every attempt, ReportOnce does what a run of the protocol can do |
| ReportAgent.ReportMatches | internal/agent/agent.go:182-204 | the state that run ends in is the one ReportOnce promises |
| ReportAgent.EnqueuedMatches | internal/agent/agent.go:278-297 | the state of such a stretch is the one enqueueReport promises: pushed and pending batches are the report in order |
| ReportAgent.EnqueueReportIsARun | internal/agent/agent.go:278-297 | in a stretch without steps of others, enqueueReport does what a run of the protocol can do, cancelled after any number of pushes or not at all |
| ReportAgent.ReportOnceRefines | internal/agent/agent.go:182-204 | ReportOnce, called in a state that matches the protocol's, leaves pending, store and answer of a state the protocol can reach |
| ReportAgent.ReportWorkerRefines | internal/agent/agent.go:303-311 | a report worker with one batch does what a worker of the protocol does: the batch ends up acknowledged or pending, and is the first of the channel |
| ReportAgent.EnqueueReportRefines | internal/agent/agent.go:278-297 | so does enqueueReport while the channel has room, and what it pushed is what the channel has gained |
| AgentReports.ReportInOrder | internal/agent/agent.go:278-297 | in any run, whatever others do meanwhile, what a call of enqueueReport has pushed, put back and still holds is, in this order, the report it set out with |
| AgentReports.ReportDone | internal/agent/agent.go:287-296 | when the call is over, every batch of the report has been pushed or put back, the pushed ones first |
| AgentReports.OthersLeaveEnqueuer | internal/agent/agent.go:278-316 | no step of a worker, a collector or the final report moves the enqueuer |
| AgentHistory.AcknowledgedExactly | internal/agent/agent.go:303-311 | in any run, acknowledged are exactly the batches whose send was, in that order |
| AgentHistory.ChannelInOrder | internal/agent/agent.go:256-316 | batches leave the channel in the order in which they were pushed, each once |
| AgentHistory.PendingExactly | internal/agent/agent.go:206-218 | pending are exactly the batches put back since all were last taken, in that order |
| AgentHistory.TotalsAndGauges | internal/agent/store.go:25-36 | totals are the sums of the increments, gauges what they were last set to |
| AgentHistory.RunAnswers | internal/agent/agent.go:222-236 | Run returns nil exactly if no collector failed and every send of the final report got through |
| AgentInvariant.IncrementOk | internal/agent/store.go:32-36 | an increment during a run keeps the balance of totals, batches and store |
| AgentInvariant.CollectOk | internal/agent/agent.go:280-286 | a snapshot moves the counters from the store into one new batch in the enqueuer's hand |
| AgentInvariant.TakePendingOk | internal/agent/agent.go:279 | taking the pending batches loses and copies none |
| AgentInvariant.PushOk | internal/agent/agent.go:287-290 | a push moves one batch into the channel, which stays within its capacity |
| AgentInvariant.AbortOk | internal/agent/agent.go:290 | cancellation inside the enqueue loop keeps the remainder in hand |
| AgentInvariant.RequeueRestOk | internal/agent/agent.go:291-294 | each remaining batch moves back to pending |
| AgentInvariant.LeaveOk | internal/agent/agent.go:259-271 | the channel is closed when nothing is left to push |
| AgentInvariant.ReceiveOk | internal/agent/agent.go:306 | a worker takes exactly one batch out of the channel |
| AgentInvariant.ExitOk | internal/agent/agent.go:303-311 | a worker leaves only when the closed channel is empty |
| AgentInvariant.GiveUpOk | internal/agent/agent.go:307-309 | a batch whose send failed is pending again with its id |
| AgentInvariant.AcknowledgeOk | internal/agent/agent.go:306-310 | an acknowledged batch leaves the worker's hand |
| AgentInvariant.NextFinalOk | internal/agent/agent.go:185-190 | the final report takes old batches one by one |
| AgentInvariant.FinalSnapshotOk | internal/agent/agent.go:194-199 | the final report snapshots only when nothing is pending |
| AgentInvariant.StepKeepsInv | internal/agent/agent.go:182-316 | every step of collectors, report loop, workers and final report keeps custody, the shape of shutdown and the balance of counters |
| AgentInvariant.RunKeepsInv | internal/agent/agent.go:222-236 | so does every run |
| AgentDrain.DrainIsBounded | internal/agent/agent.go:256-316 | once the channel is closed, at most 8 send attempts and 20 steps per worker remain |
| AgentDrain.DrainNeverStuck | internal/agent/agent.go:299-316 | until all workers have left, one of them can take a step |
| MemoryStorage.MemStorage.UpdateMetricsLocked | internal/repository/memory.go:68-81 | the maps change as the batch says, the receipts do not |
| MemoryStorage.MemStorage.UpdateMetricsOnce | internal/repository/idempotency.go:18-30 | a new key applies the batch and stores the receipt, a known one changes nothing, and a different fingerprint is a conflict |
| MemoryStorage.MemStorage.UpdateGauge | internal/repository/memory.go:44-49 | the gauge has the new value, nothing else changes |
| MemoryStorage.MemStorage.UpdateCounter | internal/repository/memory.go:52-57 | the counter has moved by the value modulo 2^64, nothing else changes |
| MemoryStorage.MemStorage.GetGauge | internal/repository/memory.go:84-89 | found exactly if the gauge exists, with its value |
| MemoryStorage.MemStorage.GetCounter | internal/repository/memory.go:92-97 | found exactly if the counter exists, with its value |
| MemoryStorage.MemStorage.SnapshotMetricsLocked | internal/repository/memory.go:205-232 | the result lists the two maps |
| MemoryStorage.MemStorage.FileSnapshot | internal/repository/memory.go:241-256 | the records list the two maps, with all receipts on the first |
| MemoryStorage.MemStorage.SaveToFile | internal/repository/memory.go:122-158 | the file is replaced by a snapshot of memory, or left as it was; encoding fails exactly for a gauge that is not finite |
| MemoryStorage.MemStorage.LoadFromFile | internal/repository/memory.go:160-197 | memory becomes what the file records say; without a file nothing changes, and nothing changes on an error |
| MemoryStorage.MemStorage.NewMemStorageWithRestore | internal/repository/memory.go:32-41 | a restored storage starts from the file if there is one, otherwise empty; a file that cannot be read or parsed gives an error and no storage |
| Snapshots.RestoreRoundTrip | internal/repository/memory.go:160-256 | loading a snapshot in any iteration order gives back gauges and counters, and the receipts unless there is no metric to carry them |
| Snapshots.LoadIsApply | internal/repository/memory.go:180-194 | loading overwrites, which for a snapshot is the same as applying it to an empty store |
| Snapshots.LastRecordCounts | internal/repository/memory.go:180-194 | of any file, repetitions included, the last record of a gauge, counter or receipt is the one that counts |
| Snapshots.NothingElseLoads | internal/repository/memory.go:177-194 | only names and keys that the file has are loaded |
| Snapshots.EncodableIff | internal/repository/memory.go:122-158 | a snapshot can be encoded exactly if every gauge is finite |
| Snapshots.AcceptedStaysFinite | internal/grpcapi/server.go:116-123 | batches with finite gauges keep a store's gauges finite |
| ServerProtocol.ReplayReceipts | internal/repository/idempotency.go:18-30 | the receipts are exactly the keys of the update history, each with the fingerprint of what was applied under it |
| ServerProtocol.ReplayCounters | internal/repository/memory.go:68-81 | counters are the sums over the whole history modulo 2^64 |
| ServerProtocol.ReplayFinite | internal/grpcapi/server.go:116-123 | a history of finite batches leaves only finite gauges |
| ServerProtocol.ReplayCarriesReceipts | internal/handler/metrics.go:305-324 | receipts imply a metric, because validated batches are not empty |
| ServerProtocol.VerdictOf | internal/repository/idempotency.go:21-29 | a batch is applied exactly if its key is not in the history, and is a conflict exactly if another fingerprint was applied under it |
| ServerProtocol.HandleOk | internal/service/metrics.go:117-141 | handling a request keeps memory the replay of the history and receipts unique |
| ServerProtocol.BeginSaveOk | internal/service/persistence.go:36-41 | the snapshot of a save is the state after a prefix of the history |
| ServerProtocol.EndSaveOk | internal/repository/memory.go:154-157 | after the rename the file restores to that prefix; a failed save keeps the old one |
| ServerProtocol.ReplyOk | internal/service/metrics.go:139-140 | with synchronous saves only keys in the file are acknowledged, and none is audited twice |
| ServerProtocol.CrashOk | internal/repository/memory.go:32-41 | a restart resumes from a prefix of the history |
| ServerProtocol.ServerStepKeepsInv | internal/service/metrics.go:117-141 | every step of handlers, saves, replies and crashes keeps all of this |
| Delivery.AgentStepOk | internal/agent/agent.go:325-400 | steps of the agent keep the link between its batches, the network and the server |
| Delivery.ServerStepOk | internal/service/metrics.go:117-141 | so do steps of the server |
| Delivery.ReturnedAcked | internal/agent/agent.go:233-235 | after a successful return every batch has been acknowledged |
| DeliveryTheorems.RunKeepsSystemInv | internal/agent/agent.go:222-236 | the joint invariant holds in every state of every run |
| DeliveryTheorems.CountersConserved | internal/agent/agent.go:182-316 | every increment is in the store, in a batch without a receipt or in the server's value, once, modulo 2^64, in any run with any crashes |
| DeliveryTheorems.BatchCustody | internal/agent/agent.go:206-218 | a batch is acknowledged or in exactly one hand, with its id and metrics |
| DeliveryTheorems.NothingLost | internal/agent/agent.go:305-310 | a batch without a receipt is still held by the agent |
| DeliveryTheorems.RateLimited | internal/agent/agent.go:256-316 | the channel and the sends under way stay within the rate limit, and nothing is pushed to the closed channel |
| DeliveryTheorems.AcknowledgedIsDurable | internal/service/metrics.go:135-140 | with synchronous saves the receipt of every acknowledged batch is in the file, even if the acknowledged request was a duplicate after a failed save |
| DeliveryTheorems.FileIsAPrefix | internal/repository/memory.go:241-256 | the file restores to the state after a prefix of the history, gauges and fingerprints included: each receipted batch counts once and no other keyed batch does |
| DeliveryTheorems.RestartHolds | internal/repository/memory.go:160-197 | in any run, right after a crash memory is what the file holds, or nothing without a file, and the history is cut to what the file had |
| DeliveryTheorems.FileOnlyGrows | internal/service/persistence.go:36-41 | later files hold a longer prefix of the same history |
| DeliveryTheorems.SavesEncodable | internal/repository/memory.go:122-158 | a running save can be encoded exactly if the gauges of its snapshot are finite, which they are unless a keyless update set one that is not |
| DeliveryTheorems.OwnRetryNeverConflicts | internal/repository/idempotency.go:21-26 | a batch of the agent is applied or recognised, never refused as a conflict |
| DeliveryTheorems.AuditedAtMostOnce | internal/handler/metrics.go:344-367 | no key has two audit events, and an audited key has its receipt |
| DeliveryTheorems.NothingLeftBehind | internal/agent/agent.go:222-236 | if Run returns nil, pending, channel and counters are empty and every batch is acknowledged |
| DeliveryTheorems.SameSum | internal/agent/agent.go:299-316 | server counters depend on which batches were applied, not on the order in which workers sent them |
| DeliveryTheorems.FinalBatchIsLast | internal/agent/agent.go:233-235 | the batch of the final report is the last update, in spite of reordering and late copies |
| DeliveryTheorems.ServerMatchesAgent | internal/agent/agent.go:220-236 | if Run returns nil and nobody else wrote, the server's counters are the agent's totals and its gauges the agent's latest |
| EndToEnd.AgentPart | internal/agent/agent.go:222-236 | the steps of the agent in a joint run are a run of the agent |
| EndToEnd.MeasuredIsStored | internal/agent/agent.go:220-236 | if Run returns nil and nobody else wrote, every counter of the server is the wrapped sum of the increments measured and every gauge what it was last set to |
| EndToEnd.RunAnswers | internal/agent/agent.go:222-236 | in any joint run too, Run returns nil exactly if no collector failed and no send of the final report was given up |
| Service.ValidKey | internal/delivery/delivery.go:33-43 | true exactly for 1 to 128 letters, digits, hyphens, underscores and dots |
| Service.Persistence.Save | internal/service/persistence.go:36-41 | the file becomes a snapshot of the storage or stays |
| Service.Persistence.Close | internal/service/persistence.go:65-72 | the first call saves, and every later one repeats its answer and leaves the file alone |
| Service.MetricsService.Save | internal/service/metrics.go:109-114 | saves exactly in synchronous mode |
| Service.MetricsService.UpdateMetricsOnce | internal/service/metrics.go:117-141 | nil only for updates that are in memory and, in synchronous mode, in the file; a duplicate saves again; an unusable key, a conflict, or a keyed batch without a fingerprint changes nothing |
| Service.UpdateMetricsOnceRefines | internal/service/metrics.go:117-141 | a call does what one handler of the protocol does: it handles, saves in synchronous mode, and replies exactly if the answer is nil; memory, file, acknowledgements and audit events are the protocol's |
| Service.RestartRefines | internal/repository/memory.go:32-41 | a restart leaves the memory of the protocol after a crash: that of the file, or empty maps without one; no start with an unreadable file |
| Service.RetryAfterFailedSave | internal/service/metrics.go:139-140 | a retry after a failed save leaves the batch counted once, in memory and in the file, and reports it as not applied |
| Service.AcceptedIsNotEmpty | internal/handler/metrics.go:305-324 | a batch that passed validation leaves at least one metric |
| Service.GaugeRouteCanBlockSaves | internal/handler/metrics.go:92-106 | after an update through the URL route a snapshot can be written exactly if that value and all other gauges are finite |
| PostgresRows.StoresAgreeIff | internal/repository/postgres.go:52-68 | after any history PostgreSQL accepts, its getters and those of the memory store agree exactly if no name was used with both types |
| PostgresRows.RowHolds | internal/repository/postgres.go:52-68 | after any accepted history, mixed names included, a row holds the sum of the deltas since the last gauge of its name, or that gauge |
| PostgresRows.AcceptedIff | internal/repository/postgres.go:61-68 | without mixed names, a history is accepted exactly if its names can be TEXT primary keys and no running total of a counter leaves int64 |
| PostgresRows.RowSimulates | internal/repository/idempotency.go:76-94 | the row of a name used with one type holds what the maps hold |
| PostgresRows.RowsLocal | internal/repository/idempotency.go:76-94 | what a batch does depends only on the rows it writes |
| PostgresRows.RowsUntouched | internal/repository/idempotency.go:76-94 | it changes no other row |
| PostgresTx.UpsertOk | internal/repository/idempotency.go:76-94 | an upsert inside a transaction is the one it would have made alone |
| PostgresTx.CommitOk | internal/repository/idempotency.go:70-73 | a commit extends the serial history and leaves the other open transactions valid |
| PostgresTx.RunKeepsInv | internal/repository/idempotency.go:43-74 | any interleaving of statements, commits and rollbacks keeps the table the serial result of the committed updates |
| PostgresTx.Serializable | internal/repository/postgres.go:98-118 | the table is what the committed updates give in commit order; uncommitted ones leave no trace |
| PostgresTx.KeyedExactlyOnce | internal/repository/idempotency.go:33-74 | a key has a receipt exactly if an update under it was committed, then once, with the fingerprint of what was applied |
| PostgresTx.AnswersHold | internal/repository/idempotency.go:43-74 | under any interleaving, a success told for a key means a committed receipt with its fingerprint, a conflict that a batch with another fingerprint was committed, and at most one caller is told applied |
| PostgresTx.AnswersStay | internal/repository/idempotency.go:43-74 | no later step of any session makes an answer or a commit undone |
| PostgresTx.CommitStretch | internal/repository/idempotency.go:43-94 | with nothing in its way, an attempt under a new key whose upserts succeed runs through to its commit, and this is what it commits |
| PostgresTx.RunGoesOn | internal/repository/idempotency.go:43-74 | any interleaving can go on with such an attempt |
| PostgresStorage.Storage.UpdateMetricsTx | internal/repository/idempotency.go:76-94 | all upserts in order, or the error of the first that fails |
| PostgresStorage.Storage.TryOnce | internal/repository/idempotency.go:43-74 | one attempt applies the whole batch with its receipt or nothing, and tells duplicates from conflicts |
| PostgresStorage.TryOnceRefines | internal/repository/idempotency.go:43-74 | one attempt does what a transaction of the interleaving does, statement by statement, gives the answer recorded there and leaves its committed state |
| PostgresStorage.Storage.UpdateMetricsOnce | internal/repository/idempotency.go:33-41 | over all attempts the batch takes effect at most once, under a new key exactly if the last attempt says so or a commit reply was lost; success means the receipt is there; a conflict is never with the call's own earlier attempt; a success reports applied exactly if no commit reply was lost before; only errors of the connection class are retried, up to four attempts |
| PostgresStorage.Storage.UpdateMetrics | internal/repository/postgres.go:92-118 | without a key the batch counts once for every lost commit reply and once more for an attempt that succeeded |
| PostgresStorage.Storage.GetGauge | internal/repository/postgres.go:121-134 | found exactly if the query succeeds and the row is a gauge with a value |
| PostgresStorage.Storage.GetCounter | internal/repository/postgres.go:137-150 | found exactly if the query succeeds and the row is a counter with a value |
| PostgresStorage.Storage.GetAllGauges | internal/repository/postgres.go:153-190 | all gauge rows with their values, whatever order they come in; nothing after an error |
| PostgresStorage.Storage.GetAllCounters | internal/repository/postgres.go:193-230 | all counter rows with their values, whatever order they come in; nothing after an error |
| Transport.WireRoundTrip | internal/grpcapi/client.go:62-82 | decoding an encoded batch gives back what counts of it, and fails exactly for an empty name or a gauge that is not finite |
| Transport.ReportsSurvive | internal/grpcapi/server.go:109-133 | the agent's own batches come through unchanged, under exactly that condition |
| Transport.CanonApplies | internal/grpcapi/client.go:62-82 | what the wire form leaves out makes no difference to a store |
| Transport.DecodedAcceptable | internal/grpcapi/server.go:109-133 | what the gRPC server decodes satisfies what the protocol demands of requests |
| Transport.ValidatedIff | internal/handler/metrics.go:305-324 | the HTTP validation lets a batch through exactly if every metric is named and carries the value of its type |
| Transport.FirstInvalidAt | internal/handler/metrics.go:159-164 | an invalid batch is answered for its first invalid metric: 404 without a name, 400 without the value its type calls for |
| Transport.RoutesAgree | internal/handler/metrics.go:152-174 | both routes accept the same batches, those the protocol accepts, with the same effect |
| Transport.SendBatch | internal/grpcapi/client.go:54-92 | a batch is sent whole under its id, or not at all; no error exactly for an empty batch and a call that succeeded |
| Transport.DecodeItems | internal/grpcapi/server.go:109-133 | the loop decodes all items and their names, or rejects the request at the first invalid one |
| Transport.MetricsServer.UpdateMetrics | internal/grpcapi/server.go:98-158 | an invalid, expired or conflicting request changes nothing; success means stored under the key given, once, and saved; an audit event exactly for a batch that was applied |
| Transport.MetricsHandler.UpdateMetricsJSON | internal/handler/metrics.go:152-174 | the status is that of the first invalid metric, and then nothing changes; otherwise the batch is stored under the key of the header, once |
| Transport.MetricsHandler.StoreBatch | internal/handler/metrics.go:344-367 | 400 for a bad key, 409 for a conflict, 500 for a missing save; the batch is stored under the key of the header, once; an audit event exactly for a batch that was applied and saved |
| Transport.KeyActsOnce | internal/service/metrics.go:117-141 | under a key a batch and its fingerprint are stored once; later requests change nothing and conflict exactly under another fingerprint |
| Transport.PostAgain | internal/handler/metrics.go:344-367 | the same request again changes nothing and publishes nothing, another batch under its key is a conflict, whatever becomes of the saves |
| Transport.CallAgain | internal/grpcapi/server.go:98-158 | so it is over gRPC |
| Transport.MetricsHandler.MetricNames | internal/handler/metrics.go:335-341 | one name per metric, in order |
| ResetTypes.ResetFieldsAt | cmd/reset/main.go:181-187 | every named field is reset by its own type, blank fields stay |
| ResetTypes.GetSet | cmd/reset/reset.tmpl:16-32 | reading a path after assigning to it gives the assigned value |
| ResetTypes.SetGet | cmd/reset/reset.tmpl:16-32 | assigning the value already there changes nothing |
| ResetTypes.SetSet | cmd/reset/reset.tmpl:16-32 | the later of two assignments to a path counts |
| ResetTypes.FreshGet | cmd/reset/main.go:214-217 | a loop variable that a path does not mention does not affect it |
| ResetNames.MeansOne | cmd/reset/main.go:140-152 | by Go's scope rules a printed type name stands for one list of declared names only |
| ResetNames.GeneratedNamesDiffer | cmd/reset/main.go:148-149 | different loops and imports get different identifiers, and no alias is a loop variable |
| ResetNames.QualifyMeans | cmd/reset/main.go:140-152 | a name printed from a type means that type, however many imports follow, exactly if none of its names is lost: hidden where it stands, not exported, not importable, or a member of another package's unnamed type |
| ResetCompiler.Generator.TypeName | cmd/reset/main.go:140-152 | local, predeclared and parameter names are printed plain, others behind the alias of their package, a fresh one if the package is new |
| ResetCompiler.Generator.Reset | cmd/reset/main.go:191-222 | the operation tree, loop counter and imports of the compiler function |
| ResetCompiler.Generator.Method | cmd/reset/main.go:170-189 | one operation per named field, in order |
| ResetCompiler.Generator.Methods | cmd/reset/main.go:81-107 | the methods of a package share one counter and one import table |
| ResetCompiler.LoopVariablesDistinct | cmd/reset/main.go:214-217 | no loop variable is bound twice in a package |
| ResetCompiler.CompileGuards | cmd/reset/main.go:204-206 | every dereference stands under a nil test of the same path |
| ResetCompiler.CompileNames | cmd/reset/main.go:211-219 | the type names of an operation mean what they were printed from exactly if none is lost where the operation stands |
| ResetCompiler.FileImports | cmd/reset/main.go:229-252 | no two packages share an alias |
| ResetCompiler.FileNames | cmd/reset/main.go:229-252 | with the imports of the finished file, the type names in each method mean the types they were printed from exactly if none is lost there |
| ResetCompiler.VariablesHide | cmd/reset/reset.tmpl:22-29 | a field of a local struct type called rs, resetter, ok, like a type parameter or like the variable of its loop is such a clash |
| ResetCompiler.UnexportedElementIsHidden | cmd/reset/main.go:191-222 | a field of an exported array type of another package is such a clash if its elements have an unexported type |
| ResetMeaning.OpCorrect | cmd/reset/main.go:191-222 | the operation compiled for a path and a type, executed, assigns exactly the reset value to that path and changes nothing else |
| ResetMeaning.LoopCorrect | cmd/reset/reset.tmpl:27-29 | a range loop resets the elements one after another |
| ResetMeaning.FieldsCorrect | cmd/reset/main.go:181-187 | the operations of a method reset its fields one after another |
| ResetMeaning.BuildsIff | cmd/reset/reset.tmpl:6-32 | the emitted methods compile exactly if nothing clashes: no struct called _, no field called Reset, no type parameter called rs, no declaration called like an alias, no printed type name that is lost |
| ResetMeaning.ResetFieldClashes | cmd/reset/main.go:98-103 | a marked struct with a field called Reset passes generation, and then its package does not build |
| ResetMeaning.NamesClash | cmd/reset/main.go:170-180 | nor does it with a marked struct called _, a type parameter called rs, or a declaration called like an import alias in use |
| ResetMeaning.NothingClashes | cmd/reset/main.go:191-217 | in any other struct whose fields need no printed type name, nothing clashes |
| ResetMeaning.ResetAsDocumented | README.md:280-288 | unless a name clashes, calling a generated method on any finite value, nil included, terminates without a panic and performs exactly the documented reset; with a clash there is no program |
| ResetMeaning.MethodsAreCompiled | cmd/reset/main.go:80-107 | every method the generator emits is compiled from its struct with the loop numbers and imports of its file |
| ResetEffect.IdempotentIff | README.md:280-288 | resetting twice is resetting once exactly if the hand-written methods have that property |
| ResetEffect.ZeroIff | cmd/reset/reset.tmpl:32 | a variable declared without a value holds 0, false, "" or nil, and these throughout arrays and structs |
| ResetEffect.BasicBecomesZero | cmd/reset/main.go:194-202 | the assignment emitted for a basic field leaves 0, false, "" or nil in it |
| ResetEffect.ResetClears | README.md:280-285 | after a reset nothing is left to clear, behind pointers and in arrays too: numbers are 0, flags false, texts empty, slices and maps without elements |
| ResetEffect.CallClears | README.md:280-288 | so calling a generated method where no name clashes leaves a cleared value on its old allocations |
| ResetEffect.ResetKeeps | cmd/reset/reset.tmpl:7 | pointers, backing arrays and maps are the same allocations as before |
| ResetEffect.ResetIsUnique | README.md:280-288 | the reset of a value is the one cleared value that keeps its allocations |
| Responses.LoggingWriter.WriteHeader | internal/middleware/logging.go:24-31 | only the first status goes out, and it is the one logged |
| Responses.LoggingWriter.Write | internal/middleware/logging.go:33-41 | the logged size is the bytes sent |
| Responses.GzipWriter.WriteHeader | internal/middleware/gzip.go:68-84 | compression is decided once, by the content type at that time, and declared in the header that goes out |
| Responses.GzipWriter.Write | internal/middleware/gzip.go:86-94 | the bytes below stand for everything written here |
| Responses.GzipWriter.Close | internal/middleware/gzip.go:96-101 | closing completes the compressed form |
| Responses.HashWriter.Flush | internal/middleware/hash.go:85-90 | one status and the whole body go down, under the signature of that body |
| Responses.FirstDecides | internal/middleware/logging.go:24-41 | the first call that is more than a header decides the status, 200 for a write, and the content type that counts |
| Responses.LastTypeCounts | internal/middleware/gzip.go:74 | of several content types the last one set counts |
| Responses.HeaderAfter | internal/middleware/gzip.go:75-79 | gzip and Vary are declared exactly for JSON and HTML and a client that takes gzip |
| Responses.ServeSigned | internal/middleware/hash.go:69-90 | for any calls of a handler: one status, a body that decodes to what was written, a signature over exactly that, gzip declared exactly if used, and a log that tells what went out |
| Responses.ServeUnsigned | internal/middleware/gzip.go:14-33 | the same without a signing key, where the content type counts at the first status or write |
| Shutdown.StepKeepsInv | internal/server/grpc.go:31-58 | every step of transports, handlers, saves and the closing sequence keeps their relations |
| Shutdown.FlushAfterDrain | internal/server/grpc.go:42-57 | with one transport or two, flush is called once, when no handler is at work and every result of Serve has been received |
| Shutdown.FinalSaveIsLast | internal/service/persistence.go:51-72 | the final save begins once, when every periodic save has ended, and no save follows it |
| Shutdown.NothingAfterReturn | internal/server/grpc.go:57 | nothing moves after the return |
| Shutdown.AnswerIff | internal/server/grpc.go:48-57 | in any run the answer is nil exactly if every Serve ended because it was stopped, HTTP shutdown did not fail and the final save succeeded |
| Shutdown.NilMeansSaved | internal/server/grpc.go:48-57 | success means that every server stopped in order and the file restores to memory, under the same condition as any restore |
| Shutdown.Progress | internal/server/grpc.go:31-58 | once asked to stop, the program always has a step of its own to take until it returns |
| Shutdown.InternalSpends | internal/server/server.go:22-39 | every step of the program itself uses up some of a bounded amount of work |
| Shutdown.ShutdownTerminates | internal/server/server.go:22-39 | however the program's own steps are scheduled after it is asked to stop, their number is bounded, and where none is possible it has returned |
| Shutdown.ShutdownCompletes | internal/server/server.go:22-39 | so from any such state it can return, with one transport or two, and with nil if nothing has failed and all gauges are finite |

## Left out

- Cryptography (RSA, AES-GCM, HMAC, SHA-256, TLS): a fingerprint is any function of the metrics; nothing here needs it to be injective, since equal fingerprints of different batches only turn a conflict into a duplicate.
- The byte formats of JSON, protobuf and gzip: JSON and protobuf bodies are the values they stand for, gzip is any codec that loses nothing. JSON's treatment of invalid UTF-8 and of negative zero is therefore not captured.
- Sockets, HTTP and gRPC internals, file-system calls, fsync and power loss: the file is a value replaced in one step, a crash loses memory only, Shutdown and GracefulStop return only when no handler is active.
- A restart with restore switched off, after which the server holds nothing whatever the file holds; the protocol's restarts restore.
- A crash of the agent: its pending batches live in memory only, so nothing is promised across one.
- Liveness against a server that never answers, a permanently rejected batch, which stays pending for ever, and unfair choices of select before cancellation is seen.
- Exactly-once for updates without a key: the protocol lets other clients send them, and they add whenever they arrive. The URL routes for single metrics and UpdateMetricJSON are such clients; their parsing is not modelled, except for what GaugeRouteCanBlockSaves says.
- In-place effects inside batches: the slices of values that snapshots point into, and pointers shared between a batch and its retries, are values here; a batch cannot change after it was created because nothing in the model could change it.
- The value arrays gaugeValues and counterValues: a listed metric holds its value rather than a pointer into them.
- ReportAgent.EnqueueReportIsARun: stated for a stretch in which the channel has room and no other goroutine steps, because a push that waits for a worker, or a requeue by one in between, is a step of the protocol and not of this function; AgentReports.ReportInOrder has the statement for any run.
- ReportAgent.Agent.EnqueueReport: stated without the requeues that workers may make during the loop; AgentReports.ReportDone covers them.
- ReportAgent.Agent.SendBatch: whether the payload can be prepared and the outcome of each attempt are parameters; compression, signing and encryption are not modelled.
- Metric collection, real-IP discovery, trusted subnets, request signatures, the HTML page, ping, audit sinks and build information.
- Configuration loading, the linter and internal/pool.
- SnapshotGauges and SnapshotAndResetCounters of the agent's store, which are not on the delivery path.
- UpdateMetrics of the service for repositories without batch updates; both repositories have them.
- Which names PostgreSQL takes as a TEXT primary key is a parameter: none with U+0000, and long ones only if they compress well enough for an index entry.
- Service.UpdateMetricsOnceRefines: stated for a call that finds the save mutex free and runs without steps of others in between, because those are steps of the protocol and not of this function.
- PostgresStorage.TryOnceRefines: stated for an attempt that waits for no lock and is not interleaved with other statements, for the same reason; a failed attempt appears as a transaction that is aborted.
- Isolation in PostgresTx is the locking of receipts and written rows to the end of the transaction; reads by the getters, connection pooling, deadlock detection and migrations are not part of it.
- Failing to listen, which flushes at once without serving, in internal/server/server.go and internal/server/grpc.go.
- Recursive pointer types such as type P *P, on which the generator does not terminate, and cyclic or aliased values, which the documentation excludes: types and values are finite trees.
- In the Reset model, fields are numbered rather than named, element values of maps and of slice cells are untyped, and a hand-written or promoted Reset is any function on the struct's value. The nesting of calls is bounded by the height of the value, which every statement takes as its fuel.
- The Reset model takes for granted that the package does not redeclare clear, any, nil or false, which can go well or not, and that its language version has them; identifiers outside ASCII count as not exported. Declarations in test files, which the generator does not read, count among those of the package; cgo types and build configurations other than the generator's are not considered. A program with a clash is no program, rather than a compiler message.
- Loading packages, finding marked structs, sorting imports, formatting and writing files in cmd/reset.
- Headers that a handler sets other than Content-Type: no handler here sets Content-Encoding, and one that did would break what ServeSigned and ServeUnsigned say about gzip.
- Informational statuses and statuses without a body in the response writers, which no handler here sends.
