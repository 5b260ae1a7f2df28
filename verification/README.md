# Verification of the inventory synchronization engine

This project models the inventory synchronization engine of UnifiedInfraTopology in Dafny and proves
what its parts promise each other. `dafny verify dfyconfig.toml` checks all of it.

The engine is a leased job protocol over database rows, driving a two-pass paged collector into a
graph store with guarded upserts. The modules follow its parts.

- **Control plane.** `Control` defines each transaction on sync runs and checkpoints as one atomic step
  and `ControlInvariants` proves what holds in every reachable state. `Repository` is the class that
  carries the transactions out on its tables. What each answer says about the rows, `Answers` spells out
  field by field, apart from the transactions themselves. A transaction that fails is rolled back, its sweep of
  stale leases included, and the database may also report failure for one that committed.
- **Graph.** `Graph` holds vertices and edges with their stamps, and the class whose methods run the
  statements; `Interleaving` takes the statements of concurrent upserts and cleanups apart.
- **Pages and digest.** `Pages` is what the worker accepts page by page, `Text` and `Digest` the byte
  stream it hashes, down to trimming and UTF-8.
- **The worker.** `System` says what all other actors together can do between two statements, `Session`
  what a worker may rely on, `Worker` the run itself, with a ghost history of what it did, and `Report`
  the independent check of a finished run. `PageWriter` is the page's concurrent writing taken apart.
- **Collectors.** `InterfacePass` flattens per-device port lists; `TorPorts`, `UplinkScan` and
  `UplinkWorker` resolve, scan, diagnose, collect and write server uplinks on their own; `UplinkRun` is
  the run around them among all other actors, `UplinkReading` the reading of the graph it relies on,
  `AfterRun` what lasts of a run that succeeded, and `StaleOwner` how its check can still fail.
- **Migration.** `Migration` is the ledger and schema under faults at any statement.
- `Base` and `Seqs` are shared vocabulary and facts about concatenation and paging.

Conventions and assumptions.

- Time is an integer of microseconds; its zero is Go's zero time. A worker's clock does not run
  backwards, and claim times of one source strictly increase. Both are stated where they are used.
- SHA-256 is taken to be injective, so two digests agree exactly when the digested values do. Vertex and
  relation identifiers, being hashes of identities, are the identities themselves.
- Any database, graph or upstream call may fail; a failed write may nevertheless have taken effect.
  Faults, cancellation, lease loss, upstream replies and the number of interleaved steps are left open.
- The repository's README calls leases and checkpoints unimplemented; the code implements them, and the
  model follows the code.
- Four properties hold only under a condition, which is stated with inputs on which they fail. It is exact
  but for the digest's, where it is sufficient.
  - The digest tells passes apart when no identity or owner contains a NUL; `Digest.NulPassesCollide`
    gives a whole class of passes with NULs that it never tells apart.
  - A run that succeeds has a complete checkpoint exactly if it does so through the joint completion, as
    the workers do (`ControlInvariants.CheckpointedExactly`); the plain transition leaves it without one
    (`ControlInvariants.SucceededWithoutCheckpoint`).
  - A lapsed lease fences a worker's step exactly as of the instant the step passes. The worker passes
    its start instant when it stops a run, so that a lapsed run nobody has swept can still be ended by
    it, and only ended (`ControlInvariants.LapsedRunCanOnlyEnd`, `ControlInvariants.LapsedRunStillStops`).
  - The independent check of a server uplink run passes exactly while what the run left is intact
    (`UplinkRun.FreshCheckPasses`); one write by a worker whose run is over can break that
    (`StaleOwner.CheckFailsAfterStaleWrite`).

## Model

| member | source | states |
|---|---|---|
| Repository.InventoryRepository.ExpireStaleSyncRuns | UnifiedInfraTopology/internal/repository/inventory_runs.go:281-311 | the two updates over stale rows together end each row whose lease, or quarter of an hour since its start, is over: canceled if it was asked to, failed with the lease code otherwise; every other row is untouched |
| Repository.InventoryRepository.Enqueue | UnifiedInfraTopology/internal/repository/inventory_runs.go:22-79 | one new row exactly as requested, if the source is there and enabled, has the key for the first time and nothing unended that the sweep leaves; a known key is answered by its row or refused; each refusal has its cause and leaves no trace, the sweep included |
| Repository.InventoryRepository.CancelRun | UnifiedInfraTopology/internal/repository/inventory_runs.go:81-124 | a queued run is canceled and finished at that instant; a running or validating one only has its first request recorded; a canceled one is left alone; publishing, succeeded and failed ones are refused; the answer says whether anything changed, and no other row does |
| Repository.InventoryRepository.ClaimNext | UnifiedInfraTopology/internal/repository/inventory_runs.go:143-211 | the oldest queued run nobody asked to cancel, the smaller identifier breaking ties, is started at that instant with a lease of a quarter of an hour after the sweep; with none waiting, or no source, nothing changes |
| Repository.InventoryRepository.TransitionRun | UnifiedInfraTopology/internal/repository/inventory_runs.go:213-249 | accepted exactly along the status graph, within the lease, with a valid code for a failure and no request before publishing; an end is stamped and gives the lease up, anything else renews it for a quarter of an hour, and only a failure keeps a code |
| Repository.InventoryRepository.RenewRunLease | UnifiedInfraTopology/internal/repository/inventory_runs.go:251-271 | accepted exactly for a leased run within its lease, which then holds at every instant before a quarter of an hour on and at none from then; no other field and no other row changes |
| Repository.InventoryRepository.RunCancellationRequested | UnifiedInfraTopology/internal/repository/inventory_runs.go:273-279 | a stored request, or a run already canceled |
| Repository.InventoryRepository.BeginCheckpoint | UnifiedInfraTopology/internal/repository/inventory_checkpoints.go:43-128 | accepted exactly for a named running run within its lease that nobody asked to stop, whose stored cursor is sound if there is one: the run's own unfinished cursor is resumed, any other checkpoint begun afresh at offset zero |
| Repository.InventoryRepository.AdvanceCheckpoint | UnifiedInfraTopology/internal/repository/inventory_checkpoints.go:130-203 | accepted exactly when the cursor is sound and strictly on from the run's own unfinished one, under the lease; then cursor and lease move together and nothing else, else nothing does |
| Repository.InventoryRepository.CompleteCheckpointAndRun | UnifiedInfraTopology/internal/repository/inventory_checkpoints.go:205-277 | accepted exactly for a publishing run within its lease with nothing left to read and no request; then checkpoint and run are finished at one instant, else nothing changes |
| ControlInvariants.StepKeepsInv | UnifiedInfraTopology/internal/repository/inventory_runs.go:22-311 | every transaction by any actor keeps the invariant of runs and checkpoints |
| ControlInvariants.ReachableInv | UnifiedInfraTopology/internal/repository/inventory_runs.go:22-311 | the invariant holds after any sequence of transactions |
| ControlInvariants.ReachableRuns | UnifiedInfraTopology/internal/model/inventory.go:46-61 | in every reachable state: one active run per source, a lease exactly while leased, a finish time exactly when terminal, no cancel request on a publishing or succeeded run |
| ControlInvariants.RowsEvolve | UnifiedInfraTopology/internal/repository/inventory_runs.go:213-249 | over any further transactions a row keeps its identity and, once terminal, never changes again |
| ControlInvariants.EnqueueIsIdempotent | UnifiedInfraTopology/internal/repository/inventory_runs.go:22-79 | once a request has created a run, a request with the same key at any later state creates nothing: a replay if it asks for the same, refused if not |
| ControlInvariants.AcceptedCancelWins | UnifiedInfraTopology/internal/repository/inventory_runs.go:81-124 | after an accepted cancel the run is publishing or succeeded in no later state |
| Answers.CanceledInTheQueue | UnifiedInfraTopology/internal/repository/inventory_runs.go:96-100 | a run canceled while queued is canceled and finished at that instant, then and in every later state |
| Answers.CancelFreesSource | UnifiedInfraTopology/internal/repository/inventory_runs.go:22-79 | its source, if enabled, then takes the next request that brings a key and an identifier of its own |
| ControlInvariants.LeaseDichotomy | UnifiedInfraTopology/internal/repository/inventory_runs.go:14-20 | for a reachable leased run every instant is either inside the lease or stale, never both |
| ControlInvariants.FencedStep | UnifiedInfraTopology/internal/repository/inventory_runs.go:213-311 | a worker's step for a run that ended, or whose lease is stale at the instant the step passes, changes no row |
| ControlInvariants.LapsedRunCanOnlyEnd | UnifiedInfraTopology/internal/repository/inventory_runs.go:213-249 | of a lapsed run nobody has swept, a step changes the row only if the instant it passes is before the lease's end; the worker's stops, which pass the start instant, can then only end it failed or canceled |
| ControlInvariants.LeaseKeepsOutlivingStart | UnifiedInfraTopology/internal/repository/inventory_runs.go:213-271 | a run's lease ends after its start, and stays so under every step that passes no instant before the start |
| ControlInvariants.StopIgnoresLapse | UnifiedInfraTopology/internal/service/sync_worker.go:648-670 | a stop at the start instant goes through exactly when the row still stands where the worker left it, lapsed or not |
| ControlInvariants.LapsedRunStillStops | UnifiedInfraTopology/internal/service/sync_worker.go:648-653 | one such run, lapsed an hour ago and still failed by its worker's stop |
| ControlInvariants.SweepEndsStaleRuns | UnifiedInfraTopology/internal/repository/inventory_runs.go:281-311 | a sweep ends every lapsed run it covers |
| ControlInvariants.NewerRunFences | UnifiedInfraTopology/internal/repository/inventory_runs.go:22-79 | once a newer run of the source exists, no step of the older run's worker changes anything in any later state |
| ControlInvariants.ExpiredRunIsFenced | UnifiedInfraTopology/internal/repository/inventory_runs.go:281-311 | once swept, a run's worker changes nothing in any later state |
| ControlInvariants.PublishingIsNeverCanceled | UnifiedInfraTopology/internal/model/inventory.go:46-57 | no step by anyone cancels a publishing run |
| ControlInvariants.HowRunsSucceed | UnifiedInfraTopology/internal/repository/inventory_checkpoints.go:205-277 | a run becomes succeeded only out of publishing, by the joint completion with its checkpoint or by a plain transition that leaves every checkpoint as it was |
| ControlInvariants.CheckpointedExactly | UnifiedInfraTopology/internal/repository/inventory_checkpoints.go:205-277 | at the step that makes a run succeed, some checkpoint is complete for it exactly if that step is the joint completion |
| ControlInvariants.SucceededWithoutCheckpoint | UnifiedInfraTopology/internal/model/inventory.go:46-57 | a reachable store in which a run has succeeded and no checkpoint exists |
| ControlInvariants.CursorsMoveForward | UnifiedInfraTopology/internal/repository/inventory_checkpoints.go:130-203 | between any two moments at which a checkpoint belongs to one run its cursor has only moved forward: offset, position, fixed snapshot, total fixed once known |
| ControlInvariants.CheckpointNeverReturns | UnifiedInfraTopology/internal/repository/inventory_checkpoints.go:43-128 | a checkpoint passed on to another run never returns to a terminal one |
| ControlInvariants.ReachableCheckpoints | UnifiedInfraTopology/internal/repository/inventory_checkpoints.go:279-321 | in every reachable state a stored cursor decodes, and a complete checkpoint names a succeeded run of its source that finished at that instant with nothing left |
| ControlInvariants.ClaimFindsWaitingRun | UnifiedInfraTopology/internal/repository/inventory_runs.go:147-211 | with a run waiting there is a first one by creation time and identifier, and it is what the claim considers |
| Graph.NormalizeProperties | UnifiedInfraTopology/internal/repository/topology_graph.go:494-516 | accepts exactly the maps some row can show, and then every name of the schema holds the value given for it, lists without their repetitions and in order, or null where none was given |
| Graph.UpsertReplacesProperties | UnifiedInfraTopology/internal/repository/topology_graph.go:318-342 | an upsert not older than the row replaces every property |
| Graph.TopologyGraph.VertexExists | UnifiedInfraTopology/internal/repository/topology_graph.go:90-135 | an answer is the graph's |
| Graph.TopologyGraph.UpsertVertex | UnifiedInfraTopology/internal/repository/topology_graph.go:279-343 | insert if absent, then update unless the stored stamp is newer: the row keeps its creation time, takes the stamp, and shows the properties given name by name; after a failure, one of the states in between |
| Graph.TopologyGraph.UpsertRelation | UnifiedInfraTopology/internal/repository/topology_graph.go:345-423 | the same for edges; one of the two kinds that is malformed, joins anything but a device and an interface of its source, or carries properties is refused and changes nothing |
| Graph.TopologyGraph.DeleteOrphanVerticesNotSeen | UnifiedInfraTopology/internal/repository/topology_graph.go:442-475 | on success a vertex is gone exactly if it is of the source and type, older than the cutoff and no edge touches it; in any case only such go, and it terminates because they shrink with each batch |
| Graph.RemovingOrphans | UnifiedInfraTopology/internal/repository/topology_graph.go:442-475 | removing orphans leaves exactly the others orphaned and no edge without its ends |
| Interleaving.UpsertAlone | UnifiedInfraTopology/internal/repository/topology_graph.go:279-343 | left alone, an upsert's statements come to the one-step upsert |
| Interleaving.CleanupAlone | UnifiedInfraTopology/internal/repository/topology_graph.go:442-475 | left alone, a cleanup's statements delete exactly the older vertices of the type that no edge touches |
| Interleaving.WriterStepGood | UnifiedInfraTopology/internal/repository/topology_graph.go:279-343 | every statement of an upsert, interleaved with any others, keeps the invariant of rows, locks and writers |
| Interleaving.CleanerStepGood | UnifiedInfraTopology/internal/repository/topology_graph.go:442-475 | every statement of a cleanup keeps it too |
| Interleaving.UpsertsAndCleanupsExclude | UnifiedInfraTopology/internal/repository/topology_graph.go:32-44 | in every reachable state no upsert and cleanup hold the lock together, no update finds its row gone, and what is about to be deleted is a vertex of the type, older than the cutoff, that no edge touches |
| Interleaving.CleanupSparesNewer | UnifiedInfraTopology/internal/repository/topology_graph.go:442-475 | what a successful upsert wrote stays under cleanups with no later cutoff |
| Interleaving.SettledRow | UnifiedInfraTopology/internal/repository/topology_graph.go:318-342 | whatever the interleaving, a settled row has the largest stamp written, all properties of an upsert with that stamp, and the creation time of its inserter, which is not after its stamp |
| Interleaving.OrderDoesNotMatter | UnifiedInfraTopology/internal/repository/topology_graph.go:398-422 | with distinct stamps two executions of the same upserts end in the same properties and stamp |
| Pages.CollectEntityPage | UnifiedInfraTopology/internal/adapter/cmdb_entity.go:127-148 | the adapter's page contract, both ways: bounded, never empty early, instances positive and increasing |
| Pages.CollectDevicePage | UnifiedInfraTopology/internal/adapter/cmdb_device.go:138-173 | the device adapter, which looks for an early end only after decoding, accepts exactly the same replies |
| Pages.ValidateRecord | UnifiedInfraTopology/internal/service/sync_worker.go:604-635 | one record is accepted exactly when it may follow those before it |
| Pages.ValidateEntityPage | UnifiedInfraTopology/internal/service/sync_worker.go:604-635 | a page is accepted exactly when its counts and records fit the cursor, and the last instance is returned |
| Pages.AddEntityIdentities | UnifiedInfraTopology/internal/service/sync_worker.go:461-473 | accepts exactly clean identities that are new to the pass and distinct, and adds them |
| Pages.ExtendPass | UnifiedInfraTopology/internal/service/sync_worker.go:265-328 | an accepted page extends an accepted pass in strict (partition, instance) order, and its cursor passes the checkpoint's own progress guard |
| Pages.AcceptedPassIsOrdered | UnifiedInfraTopology/internal/service/sync_worker.go:265-328 | any run of accepted pages has contiguous offsets and globally increasing positions, and ends with as many records as the source counted |
| Pages.PageProgress | UnifiedInfraTopology/internal/adapter/cmdb_device.go:138-173 | short of the last page something is always read, so a pass ends |
| Pages.IdentityCount | UnifiedInfraTopology/internal/service/sync_worker.go:461-473 | distinct identities number as many as the records |
| Digest.WriteEntityIdentityDigest | UnifiedInfraTopology/internal/service/sync_worker.go:475-491 | appends the stream of the page |
| Digest.StreamOfSum | UnifiedInfraTopology/internal/service/sync_worker.go:475-491 | the stream does not show where page boundaries fall |
| Digest.StreamDecodes | UnifiedInfraTopology/internal/service/sync_worker.go:475-491 | passes without NULs have equal streams if and only if they are equal in partition, instance and identity, and in owner where there is a partition, record by record |
| Digest.SameIdentities | UnifiedInfraTopology/internal/service/sync_worker.go:405-459 | the same records have the same identities |
| Digest.NulPassesCollide | UnifiedInfraTopology/internal/service/sync_worker.go:475-491 | whatever stands before and after, and for any names and instance ids: an identity that goes on after a NUL like the start of a record makes two different passes with one stream |
| Digest.NulBreaksDecoding | UnifiedInfraTopology/internal/service/sync_worker.go:475-491 | two such passes that the worker accepts |
| Text.TerminatedTextInjective | UnifiedInfraTopology/internal/service/sync_worker.go:475-491 | a NUL-terminated text without NULs can be cut off a byte stream in one way only |
| Text.TrimMeans | UnifiedInfraTopology/internal/service/sync_worker.go:461-473 | trimming takes off spaces at both ends and leaves none there |
| Text.BigEndianSpells | UnifiedInfraTopology/internal/service/sync_worker.go:475-491 | the eight bytes of an integer spell it, the most significant first |
| System.EnvStepRely | UnifiedInfraTopology/internal/repository/inventory_runs.go:147-311 | no step of any other actor breaks the system invariant, or touches the checkpoints or stamps of a run that keeps its lease |
| System.StampsNeverFall | UnifiedInfraTopology/internal/repository/topology_graph.go:318-342 | no step by anyone lowers a stored stamp, so what a run wrote is never an orphan to its own cleanup |
| System.ControlStepKeepsClaimOrder | UnifiedInfraTopology/internal/repository/inventory_runs.go:147-211 | claims of one source stay at different instants, the lease holder's the latest |
| Session.ClaimStartsSession | UnifiedInfraTopology/internal/repository/inventory_runs.go:147-211 | a claim at a fresh instant starts with nothing stamped and no checkpoint of its own |
| Session.SinceEnvStep | UnifiedInfraTopology/internal/service/sync_worker.go:164-200 | what a worker knows of its session survives whatever others do |
| Session.OwnVertex | UnifiedInfraTopology/internal/service/sync_worker.go:522-587 | a vertex written adds its record to those shown under the snapshot, with the record's own properties, and disturbs none of the others |
| Session.OwnCleanup | UnifiedInfraTopology/internal/repository/topology_graph.go:442-475 | a run's own cleanup deletes nothing it stamped |
| Session.OwnCompleteFinishes | UnifiedInfraTopology/internal/repository/inventory_checkpoints.go:205-277 | completing a collected run leaves row, checkpoint and graph in agreement, every record of the pass stored with its properties and its ownership edge |
| Session.NoOldOrphans | UnifiedInfraTopology/internal/repository/topology_graph.go:442-475 | after a cleanup any older vertex without an edge is a later arrival |
| Worker.SyncWorker.Interfere | UnifiedInfraTopology/internal/service/sync_worker.go:164-200 | between two statements others may do anything within their rights, and a session's facts survive |
| Worker.SyncWorker.CancellationRequested | UnifiedInfraTopology/internal/service/sync_worker.go:672-680 | lease loss first, then the context, then the stored request; and never on with a run that was to stop before it was asked |
| Worker.SyncWorker.Transition | UnifiedInfraTopology/internal/repository/inventory_runs.go:213-249 | an accepted change is allowed and shows in the row, with a lease of a quarter of an hour from the instant passed or finished at it; nothing collected is lost by it |
| Worker.SyncWorker.FailOrCancel | UnifiedInfraTopology/internal/service/sync_worker.go:655-670 | lease loss is reported as such, a done context is never reported as a failure, and the row says what the outcome says, finished at the instant this began |
| Worker.SyncWorker.Stop | UnifiedInfraTopology/internal/service/sync_worker.go:648-653 | each failed check ends the run its own way, finished at the instant it started |
| Worker.SyncWorker.CollectPage | UnifiedInfraTopology/internal/service/sync_worker.go:390-403 | whatever the upstream replies, no page is handed over that is empty before the count is reached |
| Worker.SyncWorker.ValidateInterfaceOwners | UnifiedInfraTopology/internal/service/sync_worker.go:493-520 | accepts a page exactly when its records have one clean owner, the partition's, known to be in the graph; refuses otherwise unless the owner's lookup failed |
| Worker.SyncWorker.WriteRecord | UnifiedInfraTopology/internal/service/sync_worker.go:533-575 | the vertex first, the ownership edge only after it: while the lease holds, the record's vertex carries the snapshot and the record's own properties name by name, and for an interface the edge from its owner's device to it carries the snapshot; no other record is disturbed |
| Worker.SyncWorker.WriteEntityPage | UnifiedInfraTopology/internal/service/sync_worker.go:522-587 | written means every record so far, the page's included, is in the graph under the snapshot with its own properties name by name, and with the edge from its owner if it is an interface; lease loss and cancellation are told apart |
| Worker.SyncWorker.CollectPass | UnifiedInfraTopology/internal/service/sync_worker.go:265-328 | a pass that is not stopped is complete: all counted records, each identity once, in order, in the graph with their own properties, page by page checkpointed, the cursor at the end |
| Worker.SyncWorker.ValidateEntitySnapshot | UnifiedInfraTopology/internal/service/sync_worker.go:405-459 | matched means a second ordered pass of the same length and stream |
| Worker.SyncWorker.EnterPublishing | UnifiedInfraTopology/internal/service/sync_worker.go:352-370 | publishing is entered only from a matched second pass and never by a run that was to stop, and coverage is read again there |
| Worker.SyncWorker.CleanupIfCovered | UnifiedInfraTopology/internal/service/sync_worker.go:371-380 | cleanup only in publishing, only when coverage was full at both readings, and then no orphan is left |
| Worker.SyncWorker.Complete | UnifiedInfraTopology/internal/service/sync_worker.go:384-387 | a completed run has row, checkpoint, graph and both passes in agreement at that instant, its end |
| Worker.SyncWorker.ExecuteClaimed | UnifiedInfraTopology/internal/service/sync_worker.go:202-388 | under any interference and any fault: every cleanup is justified by the history before it, an outcome is reported honestly, a run to be stopped from the first does nothing, and a succeeded run satisfies the full agreement of graph, checkpoint and both passes, every record of the first pass being stored under the snapshot with its own properties name by name, and with the edge from its owner if it is an interface |
| Worker.SyncWorker.ExecuteWithLease | UnifiedInfraTopology/internal/service/sync_worker.go:164-200 | the same under the heartbeat: when it has failed, even as the run ended, every error is reported as the lost lease, and success and cancellation as what they are |
| Worker.SyncWorker.ProcessNext | UnifiedInfraTopology/internal/service/sync_worker.go:135-151 | the same from the claim on, assuming only a clock ahead of earlier claims |
| Worker.HistoryJustified | UnifiedInfraTopology/internal/service/sync_worker.go:241-387 | what justifies a cleanup: coverage, every page written and checkpointed, validating, a matching second pass, publishing, coverage again |
| Worker.TidyWithoutNewcomers | UnifiedInfraTopology/internal/service/sync_worker.go:371-387 | after a cleanup, older vertices without an edge are left at the end exactly if another writer brought one in since; without newcomers every older vertex of the kind has an edge |
| Report.PersistenceReport.Validate | UnifiedInfraTopology/cmd/worker/verify.go:105-136 | passes exactly the reports whose run succeeded and gave up its lease, whose checkpoint was completed at its own end, and whose rows are sound, distinct, and as many as counted; then keeps up to five samples |
| Report.SucceededRunPasses | UnifiedInfraTopology/cmd/worker/verify.go:105-136 | every run the worker completed passes this check, in whatever order the rows come back |
| Report.SnapshotIsExact | UnifiedInfraTopology/internal/service/sync_worker.go:202-388 | the vertices stamped with a succeeded run's snapshot are exactly the first pass's identities and number the checkpoint's total; the second pass has the same records when no identity or owner hides a NUL |
| PageWriter.StepInv | UnifiedInfraTopology/internal/service/sync_worker.go:522-587 | every step of launcher and goroutines keeps the invariant |
| PageWriter.WritesBounded | UnifiedInfraTopology/internal/service/sync_worker.go:526-536 | in every reachable state at most the configured number of vertices and edges is being written, each is written at most once, and no edge before its vertex |
| PageWriter.VerdictMeans | UnifiedInfraTopology/internal/service/sync_worker.go:576-587 | written means the whole page exactly once and nothing else, with no write gone wrong and no interruption; every other verdict has its cause among the steps taken |
| PageWriter.CausesMean | UnifiedInfraTopology/internal/service/sync_worker.go:536-587 | an error stands exactly for a write that went wrong, and the caller's end exactly for an interruption |
| PageWriter.ExecutionsAreShort | UnifiedInfraTopology/internal/service/sync_worker.go:522-587 | no execution is longer than its measure |
| PageWriter.Progress | UnifiedInfraTopology/internal/service/sync_worker.go:533-576 | until it returns some step is always possible, so it terminates when writes do |
| InterfacePass.EntityPass.Open | UnifiedInfraTopology/internal/adapter/cmdb_interface_pass.go:31-127 | opens exactly the admissible device lists, the same for every page size; its partitions are then the selected devices under their instance and trimmed serial number, each as long as its port list, end to end |
| InterfacePass.OpenableMeans | UnifiedInfraTopology/internal/adapter/cmdb_interface_pass.go:69-126 | the checks made device by device come to one statement about the whole list |
| InterfacePass.PartitionsLayOut | UnifiedInfraTopology/internal/adapter/cmdb_interface_pass.go:107-119 | partitions lie end to end in device order, all offsets and the total within a 64-bit integer |
| InterfacePass.PartitionsDiscover | UnifiedInfraTopology/internal/adapter/cmdb_interface_pass.go:69-126 | the partitions are exactly the selected devices, in order, none twice |
| InterfacePass.EntityPass.Search | UnifiedInfraTopology/internal/adapter/cmdb_interface_pass.go:148-151 | the binary search finds the one partition around the offset, skipping empty ones |
| InterfacePass.EntityPass.Page | UnifiedInfraTopology/internal/adapter/cmdb_interface_pass.go:138-173 | a page is a stretch of one device's ports at the offset, each with the upstream's identity, instance and properties and the device's instance and serial number, and fails exactly when those ports do not decode in order |
| InterfacePass.TakePartitionPage | UnifiedInfraTopology/internal/adapter/cmdb_interface_pass.go:153-172 | a device's reply becomes a page exactly when it is acceptable, as long as asked for, and of a list as long as at the opening; each record is then the item at its place, field by field, under the device's instance and serial number |
| InterfacePass.EntityPass.Follow | UnifiedInfraTopology/internal/service/sync_worker.go:272-328 | following pages from the first offset succeeds exactly when every selected port decodes in increasing order, for any page size; each port then stands at its device's offset plus its own place, field by field, under its device, and nothing else does |
| InterfacePass.PortsOnce | UnifiedInfraTopology/internal/adapter/cmdb_interface_pass.go:107-119 | each position of the flat list is one port of one device, field by field under its device, and no port has two |
| TorPorts.CollectToRPorts | UnifiedInfraTopology/internal/adapter/cmdb_server_uplink.go:134-235 | fails exactly when the one device found, or a port of the switch, is unreadable; it gives a name an identifier exactly if, among the raw items, only one reads that name, which is not blank, it reads that identifier, and no item reads it under another name; for every page size |
| TorPorts.ResolvesWhen | UnifiedInfraTopology/internal/adapter/cmdb_server_uplink.go:166-234 | a name has an identifier exactly when it is not blank, stands once, has one, and that one stands under no other name |
| TorPorts.ResolvingIsInjective | UnifiedInfraTopology/internal/adapter/cmdb_server_uplink.go:223-234 | no two names share an identifier |
| TorPorts.ResolveMeans | UnifiedInfraTopology/internal/adapter/cmdb_server_uplink.go:192-234 | resolution over the raw items: the identifier a name resolves to is the one it stands for on the switch found |
| TorPorts.CollectDiagnosticToR | UnifiedInfraTopology/internal/adapter/cmdb_uplink_diagnostics.go:178-288 | fails on the same switches, holds the same identifiers by the same statement over the raw items, and gives each other name what is the matter with it there |
| TorPorts.NoReasonMeansResolved | UnifiedInfraTopology/internal/adapter/cmdb_uplink_diagnostics.go:147-158 | the reason is clear exactly when there is an identifier |
| TorPorts.DiagnosedMeans | UnifiedInfraTopology/internal/adapter/cmdb_uplink_diagnostics.go:178-288 | diagnosis over the raw items: no switch, several, another one, or what is the matter with the items of that name |
| UplinkScan.ServersOkSum | UnifiedInfraTopology/internal/service/server_uplink.go:126-147 | checking page by page with what the last page left is checking the whole list |
| UplinkScan.ScanOkMeans | UnifiedInfraTopology/internal/adapter/cmdb_server_uplink.go:60-132 | what a scan accepts, over the raw servers: numbered upwards, classified 52, no serial number blank or twice, every entry readable, every switch answerable, no identifier of two switches |
| UplinkScan.ReferencesAsListed | UnifiedInfraTopology/internal/adapter/cmdb_server_uplink.go:78-128 | the references are those the raw lists make, server by server, entry by entry, name by name, each with its server, switch, name and what that name stands for, and no more |
| UplinkScan.ResolvedInOrder | UnifiedInfraTopology/internal/adapter/cmdb_server_uplink.go:118-127 | the resolved references are those with an identifier, in order |
| UplinkScan.CollectServerUplinkPage | UnifiedInfraTopology/internal/adapter/cmdb_server_uplink.go:29-132 | a page exactly for an admissible slice; its k-th link goes from the device of the server of the k-th resolved reference to the interface of its identifier, whose target is its switch; the others are counted, and the header is the slice's, field by field |
| UplinkScan.CollectServerUplinkDiagnostics | UnifiedInfraTopology/internal/adapter/cmdb_uplink_diagnostics.go:41-176 | succeeds exactly when the whole list is admissible; row by row it then repeats the reference's server, switch and names, carries its identifier, and says what is the matter with it among the raw items |
| UplinkWorker.AcceptPage | UnifiedInfraTopology/internal/service/server_uplink.go:126-170 | a page is accepted exactly when it fits pagination, order, serial numbers and owners so far |
| UplinkWorker.PageFitsMeans | UnifiedInfraTopology/internal/service/server_uplink.go:117-185 | on an unchanging source the cross-page checks and the adapter's own come to the definition over the list so far |
| UplinkWorker.Collect | UnifiedInfraTopology/internal/service/server_uplink.go:117-185 | on an unchanging source a pass is accepted exactly when the whole list is admissible, at any page size, and its k-th link is then the k-th resolved reference's, from its server to its identifier with its switch as owner; on any source every link is whole, each once among the candidates, and no port has two owners |
| UplinkWorker.CompareWithDiagnostics | UnifiedInfraTopology/internal/adapter/cmdb_uplink_diagnostics.go:41-176 | for any two page sizes diagnosing and collecting succeed together; the k-th collected link goes from the k-th clear row's server to its port identifier, with its switch as owner; the other rows number the skipped |
| UplinkWorker.ClearAreResolved | UnifiedInfraTopology/internal/adapter/cmdb_uplink_diagnostics.go:147-166 | clear references are the resolved ones, the others the unresolved |
| UplinkWorker.ClearInOrder | UnifiedInfraTopology/internal/adapter/cmdb_uplink_diagnostics.go:147-166 | the clear rows are those without a reason, in order |
| UplinkWorker.PairsAsLinked | UnifiedInfraTopology/internal/service/server_uplink.go:150-165 | the links of a pass are those of its pages, page by page, each with the owner its page names |
| UplinkWorker.ServerUplinkWorker.ReadEndpoints | UnifiedInfraTopology/internal/repository/server_uplink_endpoints.go:37-84 | valid exactly when one device owns the port, it is that switch, and server, switch and port are classified 52, 54 and physical |
| UplinkWorker.UsableMeans | UnifiedInfraTopology/internal/service/server_uplink.go:58-90 | an edge is written exactly for a link whose ends and switch exist, whose port that switch alone owns, and whose three ends are classified as they should be |
| UplinkWorker.ServerUplinkWorker.CheckAll | UnifiedInfraTopology/internal/service/server_uplink.go:58-90 | reads every endpoint before anything is written, its cache agreeing with fresh reads |
| UplinkWorker.ServerUplinkWorker.WriteAll | UnifiedInfraTopology/internal/service/server_uplink.go:91-104 | writes the edges in order; after a failure some first ones stand |
| UplinkWorker.ServerUplinkWorker.Run | UnifiedInfraTopology/internal/service/server_uplink.go:38-115 | no edge unless all reads succeeded; on success the edges that are there or stamped anew are exactly those of links whose ends and switch exist, properly classified and with that one owner, every other edge being as it was; edges plus missing number the distinct relations, skipped the unresolved plus missing, and both passes give the same links and owners in the same order |
| UplinkWorker.SumsGivePairs | UnifiedInfraTopology/internal/service/server_uplink.go:146-166 | equal digests mean equal links with their owners, in order |
| UplinkWorker.DistinctLinks | UnifiedInfraTopology/internal/service/server_uplink.go:155-170 | distinct candidates number the distinct relations |
| UplinkRun.UplinkReport.Validate | UnifiedInfraTopology/cmd/worker/server_uplink.go:142-157 | passes exactly the reports whose run succeeded and gave up its lease, whose checkpoint was completed with it at its own end, and whose graph counts what the cursor counts |
| UplinkReading.ReadGraph | UnifiedInfraTopology/cmd/worker/server_uplink.go:260-349 | the three queries and the checks on their rows: a report is made if and only if the listed uplinks number as expected and are soundly stamped, and each has exactly one path, to one network device; it then holds their counts |
| UplinkReading.QueriesAtOneMoment | UnifiedInfraTopology/cmd/worker/server_uplink.go:260-349 | made at one moment, the queries pass exactly when that many uplinks carry the snapshot and each leads from a server to a physical port of the source that one device owns, a network device of the source |
| UplinkReading.QueriesInSequence | UnifiedInfraTopology/cmd/worker/server_uplink.go:260-349 | made one after the other while no uplink gains or loses the snapshot, they say so of the last moment |
| UplinkReading.PassesAgain | UnifiedInfraTopology/cmd/worker/server_uplink.go:306-347 | what passed once passes later exactly if every counted uplink still carries the snapshot, no other ownership came into its port, and ends and owner are classified as before |
| UplinkReading.GraphPassesMeans | UnifiedInfraTopology/cmd/worker/server_uplink.go:260-349 | the verdict on a graph, over its edges, vertices and properties |
| AfterRun.SuccessLasts | UnifiedInfraTopology/internal/repository/inventory_runs.go:213-311 | over any steps of others a succeeded run's row is frozen, no edge or vertex with an edge disappears, nobody puts its snapshot on an edge, and its checkpoint, while it names the run, is the one completed |
| UplinkRun.FinishFailed | UnifiedInfraTopology/cmd/worker/server_uplink.go:393-410 | an unsuccessful run ends failed, or canceled by the caller's own context or a request on record, and the row says which; a lease context ended by the heartbeat does not cancel it |
| UplinkRun.CheckAll | UnifiedInfraTopology/internal/service/server_uplink.go:58-90 | under any interference, what is chosen for writing names distinct relations, each a link of the pass whose port the graph ties to the switch the source named |
| UplinkRun.RunWorker | UnifiedInfraTopology/internal/service/server_uplink.go:38-115 | under any interference, success means exactly as many edges written as reported, nothing else carrying the snapshot, and each a link both passes read |
| UplinkRun.ValidateGraph | UnifiedInfraTopology/cmd/worker/server_uplink.go:447-449 | an accepted reading, under the lease, says the graph passes at its end |
| UplinkRun.ExecuteServerUplink | UnifiedInfraTopology/cmd/worker/server_uplink.go:353-469 | under any interference and fault, a succeeded run's checkpoint counts exactly the edges with its snapshot, the graph read back held them sound and has lost nothing, and each edge's port then had one owner, the switch the source named with the link; an unsuccessful end is as the row says |
| UplinkRun.VerifyServerUplink | UnifiedInfraTopology/cmd/worker/server_uplink.go:159-230 | the whole check: unless a query fails it accepts exactly a run of a usable source whose row and checkpoint stand and whose counted uplinks the graph holds, all of them sound, whatever else they hold |
| UplinkRun.CheckMeans | UnifiedInfraTopology/cmd/worker/server_uplink.go:142-230 | rows and graph agreeing, field by field |
| UplinkRun.FreshCheckPasses | UnifiedInfraTopology/cmd/worker/server_uplink.go:142-157 | whatever others do after success, a check made afresh passes if and only if the checkpoint still names the run, its edges still carry the snapshot, no other ownership came into their ports since the graph was read back, and their ends and owners are classified as then |
| StaleOwner.CheckAtCompletion | UnifiedInfraTopology/cmd/worker/server_uplink.go:142-230 | at completion the graph holds as many current uplinks as the checkpoint counts, of at least as many, and a fresh check fails only for what was disturbed since the graph was read back |
| StaleOwner.StaleOwnershipFailsCheck | UnifiedInfraTopology/cmd/worker/server_uplink.go:306-347 | any write of a further ownership into a counted port on behalf of any other run of the source, however long over, is open to that run's worker and makes the check fail |
| StaleOwner.CheckFailsAfterStaleWrite | UnifiedInfraTopology/cmd/worker/server_uplink.go:306-347 | one system where the check passes, and fails after one such write |
| Migration.FreshStands | UnifiedInfraTopology/internal/migration/apply.go:64-73 | an empty database is where the invariant starts |
| Migration.VerifyRows | UnifiedInfraTopology/internal/migration/ledger.go:10-41 | whatever the ledger holds, it is accepted exactly if its i-th row is the release's i-th step, applied, under its name and checksum |
| Migration.Connection.VerifyLedger | UnifiedInfraTopology/internal/migration/ledger.go:10-41 | the same over a connection that may fail to read |
| Migration.AcceptedWhere | UnifiedInfraTopology/internal/migration/ledger.go:21-37 | where a database stands, a release accepts its ledger exactly if no step is open and it knows all that are applied |
| Migration.Connection.ApplyStep | UnifiedInfraTopology/internal/migration/apply.go:88-117 | a step ends applied, or with its row open and the statements executed so far; in SQLite with none of them |
| Migration.Connection.FailStep | UnifiedInfraTopology/internal/migration/apply.go:119-132 | records the failure, in SQLite after undoing the step |
| Migration.Connection.ApplyLocked | UnifiedInfraTopology/internal/migration/apply.go:64-86 | advances only past verified steps, and leaves ledger and schema alone when the ledger is full, blocked, or not one the release accepts |
| Migration.Connection.ApplyMySql | UnifiedInfraTopology/internal/migration/lock.go:13-53 | what stands after an attempt that kept each statement at once |
| Migration.Connection.ApplySqlite | UnifiedInfraTopology/internal/migration/lock.go:55-86 | what stands after commit, rollback or a lost connection |
| Migration.Apply | UnifiedInfraTopology/internal/migration/apply.go:28-50 | one attempt, with any faults, moves ledger and schema forward together, or not at all when done, blocked, or refused whatever the ledger holds |
| Migration.ApplyRepeatedly | UnifiedInfraTopology/internal/migration/apply.go:64-132 | after any attempts applied versions are the first ones, at most one further row is open and blocks the rest, the schema is theirs plus a prefix of that step, none of it for SQLite; after full success nothing changes |
| Migration.RowAt | UnifiedInfraTopology/internal/migration/ledger.go:10-41 | the ledger's rows in order: the applied steps first, each under its version, name and checksum, and at most one open step last |
| Migration.ScriptApplied | UnifiedInfraTopology/internal/migration/apply.go:88-117 | every fragment of an applied script that is not blank stands in the schema, trimmed, at its place |
| Migration.StatementCount | UnifiedInfraTopology/internal/migration/apply.go:88-117 | and a script has no other statements |

## Left out

- Digest.StreamDecodes: the NUL-free condition is sufficient, not necessary; passes with NULs outside the class of `Digest.NulPassesCollide` are not characterised.
- Graph.TopologyGraph.UpsertRelation: covers ownership and server uplinks, which carry no properties; the nulls that fill an edge's unnamed properties are not stored, and an absent property reads as null. The property and orientation rules of the other relation kinds are left out, as no worker writes them.
- UplinkReading.ReadGraph: an edge's stored relation identifier and rank stand for its identity, so that the checks that they are present, distinct and agree with it cannot fail.
- UplinkRun.FreshCheckPasses: reads rows and graph at one moment; a check whose queries fall between other actors' steps is covered for the run's own reading only.
- UplinkRun.RunWorker: takes the pages of each pass as a function of the offset, of server uplinks of the source only, which `UplinkWorker.CollectorMakesUplinks` shows of the collector.
- Worker.SyncWorker.WriteEntityPage: writes one record at a time in any order, with other actors in between; the goroutines, semaphore and first error are taken apart in `PageWriter`.
- Worker.SyncWorker.ValidateEntitySnapshot: does not say that an unchanged source must match, because any reply and any call may fail.
- Worker.SyncWorker.Cleanup: no other writer of the source acts during the cleanup, which the in-process lock ensures; another process writing meanwhile is not modelled.
- HTTP requests, JSON decoding, field mapping and configuration: an upstream is a list of items, each decoded or not, and a count.
- SQL and nGQL texts, gorm, isolation levels, connection pools and advisory-lock transport: each transaction or statement is one atomic step.
- Timers, tickers and the backoff of the polling loop: the heartbeat is a renewal by the environment that may fail at any moment.
- The mode, requester, parameters and statistics columns of a run, and the pagination of run lists: nothing modelled depends on them.
- DeleteRelationsNotSeen, which no worker calls.
- Graph edges are never deleted in the model, as no modelled operation deletes one.
- ProcessClaimed: a guard in front of the execution `Worker.SyncWorker.ExecuteWithLease` models.
- Accounts, tokens, routing, handlers, signed list cursors and logging: no property of synchronization depends on them.
