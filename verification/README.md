# Collaboration, rooms, processing and access: a verified model

This project models four connected state machines of a collaborative typesetting server and
proves, in Dafny, what they promise. To check it, run `dafny verify dfyconfig.toml`.

**Durable collaboration** (`YjsState`, `Collab*`). Every document has a log of updates, one snapshot
per revision and a projected text. Writers, the background projector, bootstraps and captures run
concurrently and are kept apart by a lock per document and by two project epochs (content, access)
that are read under shared and advanced under exclusive locks. A Yjs update is a finite set of
uniquely identified operations and merging is set union; what text a set of operations renders to is
left open. `CollabSystem` takes every database statement of every transaction as a step of its own,
so the theorems hold in every interleaving. A writer begins only for a document that some socket has
bootstrapped, since a socket reads messages only after its own bootstrap succeeded
(backend/src/collaboration/websocket.rs:824-937), and a reconciliation only for one that has been
written, as every listed document has. `CollabStore` is the same store as an object whose methods
change the tables in place, one transaction at a time.

**Rooms** (`Rooms`, `RoomRuns`, `RoomProofs`, `RoomCauses`). Sockets read their permissions and both
epochs at different moments, subscribe to a broadcast channel, and read everything again, while
requests commit an epoch advance first and broadcast it afterwards, one channel after the other.

**Document processing** (`Processing*`). Jobs are admitted under limits and idempotency keys,
claimed by workers, requeued when a claim is lost, and finalized under leases with fresh tokens;
retention and blob collection run beside all of this. Workers are the environment: each of their
transactions may happen whenever its own guard allows it. A maintenance pass is three steps, so that
others come between its deadlines, the choice of what to delete and the deletion; so are the reading
of a cached result and the link to it two.

**Access** (`OidcSync`, `Grants`, `ProjectBundle`, `AccountPolicy`). Synchronising memberships with
provider groups, the access list against the gate, materialising a bundle, and usernames.

## What was found

- An ordinary flush reads its target as the largest committed update identifier. Identifiers are
  drawn before they commit, so a smaller one may commit after the flush and is covered by nothing.
  A flush covers everything up to its target, whatever else happens meanwhile, if and only if every
  plain update that is in flight up to the target when the flush lists its documents is on a listed
  one (`CollabFlushExact.FlushCoversExactly`); `CollabExamples.FlushMissesUpdateInFlight` is a run in
  which it is not. The capture flush, under the exclusive lock, has no such gap
  (`CollabBarrier.CaptureBarrier`).
- Maintenance expires uploaded files by their transfer deadline even after the worker delivered
  them. A result that would have been published before a pass can still be published after it if and
  only if the deadline of each file of a required role was ahead
  (`ProcessingExpiry.DeliveryAfterMaintenance`, over all runs
  `ProcessingRefusals.PublishableAfterMaintenance`); losing the optional log alone does no harm, and
  a finalizer that had loaded the result before the pass is not affected.
  `ProcessingExamples.DeliveredInTimeOrRefused` is a run from the empty tables that ends published
  or failed depending on when the finalizer comes.
- Retention can delete the source of a cache hit, which the comment at
  backend/src/document_processing/finalization.rs:291-294 rules out. The delete picks its jobs from
  the tables as they were when the statement began, and a claim that has read a result but not yet
  committed its link to it is not seen; the link is cleared with the source, and the job is refused
  as an incomplete set. A finalizing cache hit keeps its source, with the same artifacts, in every
  continuation if and only if no pass under way has chosen that source
  (`ProcessingTheorems.CacheHitIsSafe`, at the commit of the link `ProcessingTheorems.LinkIsSafe`);
  otherwise some continuation refuses it (`ProcessingCacheHits.PickedHitIsRefused`).
  `ProcessingCacheHits.RetentionTakesTheSource` is a run from empty tables.

## Model

| member | source | states |
|---|---|---|
| `YjsState.MergeUpdates` | backend/src/collaboration/yjs_state.rs:33-54 | applying updates one by one yields the join of the snapshot and all of them |
| `YjsState.MergeIgnoresOrderAndRepetition` | backend/src/collaboration/yjs_state.rs:33-54 | delivering the same updates in any order and any number of times gives the same state |
| `YjsState.CompactionIsIdempotent` | backend/src/collaboration/projection.rs:96-181 | a compacted snapshot may overlap the log it was made from without changing the meaning |
| `CollabTables.PruneKeepsDurable` | backend/src/collaboration/persistence.rs:205-240 | pruning removes only rows the snapshot covers and changes no document's meaning |
| `CollabTables.ReconcileEffect` | backend/src/collaboration/projection.rs:96-181 | reconciling keeps what is durable, covers every row, and makes the text that of the full merge |
| `CollabCommits.UpdateEffect` | backend/src/collaboration/updates.rs:16-151 | a committed update adds exactly its operations to its document |
| `CollabCommits.ReconcileCommitEffect` | backend/src/collaboration/projection.rs:183-239 | what a projector or bootstrap loaded earlier is still current at its commit, which keeps all operations |
| `CollabCommits.ClearRevisionEffect` | backend/src/collaboration/persistence.rs:103-130 | dropping a superseded revision touches no other document revision |
| `CollabCommits.FlushEffect` | backend/src/collaboration/projection.rs:275-329 | flushing a list of documents leaves none of them pending and keeps every live document's operations |
| `CollabSteps.StepSound` | backend/src/collaboration/updates.rs:16-151 | every statement of every transaction keeps the tables consistent and the locks exclusive |
| `CollabMeaning.StepFaithful` | backend/src/collaboration/persistence.rs:132-319 | every step keeps durable state equal to the join of what was acknowledged |
| `CollabMeaning.DurableIsWhatWasAcknowledged` | backend/src/collaboration/persistence.rs:242-319 | in every interleaving, snapshot joined with later rows equals everything bootstrapped or acknowledged for the current document, revision and epoch |
| `CollabBoot.DurableIsSeedAndAcknowledged` | backend/src/collaboration/bootstrap.rs:14-98 | in every interleaving, durable state of a bootstrapped document is the seed made from the text it had when it became current, joined with every acknowledged update |
| `CollabBoot.FirstBootstrapKeepsText` | backend/src/collaboration/yjs_state.rs:12-23 | bootstrapping an untouched document leaves its text as it is |
| `CollabFence.AcknowledgedUpdatesKnowEveryAdvance` | backend/src/collaboration/updates.rs:28-87 | in commit order every acknowledged update carries the content epoch, access epoch and revision then in force |
| `CollabFence.RowsCarryTheCurrentEpoch` | backend/src/collaboration/persistence.rs:143-167 | every committed row carries its project's current content epoch |
| `CollabBarrier.ExclusiveFreezesProject` | backend/src/document_processing/project_input.rs:142-179 | nobody else's step changes a project while a capture holds its content lock |
| `CollabBarrier.CaptureBarrier` | backend/src/collaboration/projection.rs:275-329 | after a capture flush nothing of the project is pending and each text is that of its full merge |
| `CollabBarrier.CommittedRowsAreNeverLost` | backend/src/collaboration/persistence.rs:205-240 | a committed row of a still current document stays stored or covered for ever |
| `CollabBarrier.ProjectorCommitLowersBacklog` | backend/src/collaboration/projection.rs:183-239 | each projector commit uncovers nothing and strictly lowers the number of pending updates |
| `CollabFlush.ListedFlushCovers` | backend/src/collaboration/projection.rs:241-273 | when every plain update in flight up to the target is on a listed document, a flush covers everything up to the target whatever happens meanwhile |
| `CollabFlushExact.FlushCoversExactly` | backend/src/collaboration/projection.rs:241-273 | in every reachable state all flushes from there cover everything up to their target if and only if every plain update in flight up to it is on a listed document |
| `CollabFlushExact.ListedWasWritten` | backend/src/collaboration/persistence.rs:341-434 | in every reachable state a document with an uncovered row has an acknowledged update, so whatever is listed may be reconciled |
| `CollabExamples.FlushMissesUpdateInFlight` | backend/src/collaboration/projection.rs:241-273 | a run in which a complete flush leaves an update below its target uncovered |
| `CollabRuns.WriterDraws` | backend/src/collaboration/updates.rs:28-103 | a current writer whose locks nobody holds gets as far as drawing its identifier |
| `CollabProgress.WriterCommits` | backend/src/collaboration/updates.rs:16-151 | a current writer, plain or sync, whose locks nobody else holds goes through to its acknowledgement |
| `CollabProgress.CaptureCommits` | backend/src/collaboration/projection.rs:275-329 | with nobody else at work a capture takes its locks, flushes everything pending and commits |
| `CollabProgress.SupersededIsCleared` | backend/src/collaboration/projection.rs:183-239 | a projector that finds the document at another revision deletes exactly the rows and the snapshot of the one it came for |
| `CollabStore.AdmittedEffect` | backend/src/collaboration/updates.rs:88-151 | admission adds the operations, and a sync also compacts and fixes the text |
| `CollabStore.AdmittedIsTheWriter` | backend/src/collaboration/updates.rs:16-151 | the store's admission is the writer transaction of the interleaving model |
| `CollabStore.CollaborationStore.LoadState` | backend/src/collaboration/persistence.rs:242-319 | the snapshot of the same epoch and, in order, exactly the later rows with their kinds and operations, their authors once each, and the last identifier |
| `CollabOutcomes.ReadsBackAll` | backend/src/collaboration/persistence.rs:132-319 | after any number of accepted plain updates a load returns what it returned before, then each update with its kind and operations in the order of acceptance, and exactly their authors besides |
| `CollabStore.CollaborationStore.Reconcile` | backend/src/collaboration/projection.rs:96-181 | the three outcomes and the tables after each; the returned snapshot is the merge |
| `CollabStore.CollaborationStore.PersistUpdate` | backend/src/collaboration/updates.rs:16-151 | admits exactly under the current epochs and revision, refuses in the order of the checks without effect; an accepted plain update is stored with its kind, operations and author under the next identifier and only covered rows past the retention go; a sync also compacts the document up to it |
| `CollabStore.CollaborationStore.ReconcilePendingDocument` | backend/src/collaboration/projection.rs:183-239 | one document is reconciled or cleared and its rows are settled |
| `CollabStore.CollaborationStore.PendingProjectDocuments` | backend/src/collaboration/persistence.rs:341-409 | each document with an uncovered row up to the target once, ordered by its first such row |
| `CollabStore.CollaborationStore.LatestProjectUpdateId` | backend/src/collaboration/persistence.rs:321-340 | the largest identifier of the project, or none |
| `CollabStore.CollaborationStore.FlushProject` | backend/src/collaboration/projection.rs:241-329 | leaves nothing of the project pending, keeps every meaning, and returns exactly the current listed documents whose text changed, once each |
| `CollabStore.CollaborationStore.NextPendingDocument` | backend/src/collaboration/persistence.rs:411-434 | the document of the oldest uncovered row, or proof that there is none |
| `CollabStore.CollaborationStore.ProjectBatch` | backend/src/collaboration/projection.rs:354-394 | a pass ends idle or lowers the backlog by a whole batch |
| `CollabStore.CollaborationStore.ProjectUntilIdle` | backend/src/collaboration/projection.rs:354-394 | without new writes the projector reaches nothing pending |
| `CollabStore.CollaborationStore.PrepareDocumentBootstrap` | backend/src/collaboration/bootstrap.rs:14-98 | succeeds exactly for a current document, returns its durable state, seeds only what was empty and leaves no row or snapshot of another revision |
| `Rooms.ClosingSurvives` | backend/src/collaboration/rooms.rs:95-115 | a queued closing event stays until read, or the receiver lags, which closes too |
| `Rooms.CollaborationRooms.Subscribe` | backend/src/collaboration/rooms.rs:95-115 | the receiver joins the mapped channel, new only where there was none |
| `Rooms.CollaborationRooms.RemoveIfIdle` | backend/src/collaboration/rooms.rs:130-150 | only this channel goes, and only while nobody listens |
| `Rooms.CollaborationRooms.BroadcastProject` | backend/src/collaboration/rooms.rs:224-236 | every receiver of every room of the project has the event last in its inbox, under its room's name, with a lag noted beyond 512, and no other inbox changes |
| `Rooms.CollaborationRooms.Receive` | backend/src/collaboration/websocket.rs:531-594 | events in order; a lag or one of the four kinds that end a stream drops the receiver, and any other event leaves it listening |
| `RoomProofs.StepInv` | backend/src/collaboration/websocket.rs:770-862 | every step of sockets and mutators keeps the room invariant |
| `RoomProofs.StaleSocketIsWarned` | backend/src/collaboration/websocket.rs:688-750 | an admitted socket with a stale epoch has a closing event or lag waiting, or its mutator still owes the broadcast |
| `RoomProofs.AdmissionIsNotTorn` | backend/src/collaboration/websocket.rs:294-320 | the principal of an admitted socket is exactly the permission in force at its captured access epoch |
| `RoomProofs.ListenersAreOnTheMappedChannel` | backend/src/collaboration/rooms.rs:95-150 | the channel of each live receiver is the one mapped for its room |
| `RoomProofs.MappedRoomHasAKeeper` | backend/src/collaboration/websocket.rs:1037-1043 | a mapped room always has a socket that listens or still has to remove it |
| `RoomProofs.RoomsVanish` | backend/src/collaboration/websocket.rs:1037-1043 | once all sockets have finished no room is left |
| `RoomProofs.WarnedSocketCloses` | backend/src/collaboration/websocket.rs:531-594 | in every run, whatever others send meanwhile, a socket for which a closing event or lag waits has left after as many of its own steps as its queue is long and one more, and until then its next step is not blocked |
| `RoomCauses.NobodyLeavesWithoutCause` | backend/src/collaboration/websocket.rs:531-750 | over every run a socket that stopped listening has quit, read a lag or one of the four events, or found at revalidation an epoch or permission other than the one it captured |
| `RoomCauses.UndisturbedIsAdmitted` | backend/src/collaboration/websocket.rs:770-862 | from every reachable state a connection of a user who may read, left undisturbed, is admitted with the permissions and epochs in force |
| `RoomCauses.RelayedIsRead` | backend/src/collaboration/websocket.rs:531-594 | an admitted socket that reads an event of any other kind than the four stays admitted, on its channel, with the rest of its inbox |
| `RoomCauses.RelayReaches` | backend/src/collaboration/websocket.rs:531-594 | what a socket relays is read by an admitted socket of its room, which stays and may still quit |
| `RoomCauses.AdvanceReaches` | backend/src/collaboration/rooms.rs:224-236 | a request that advances an epoch can list the room, send to it, and make a waiting socket leave |
| `ProcessingModel.ContractRolesDistinct` | backend/src/document_processing/operation_contract.rs:41-121 | no contract lists a role twice, so each entry is found by its role |
| `ProcessingModel.RetryDelayDoubles` | backend/src/document_processing/model.rs:7-13 | the delay starts at one second, doubles, is capped at thirty and never shrinks |
| `ProcessingModel.LifeCycle` | backend/src/document_processing/finalization.rs:177-275 | terminal states are absorbing, completion time and token fit the state, cancelled jobs are not requeued, requeues wait 1 to 30 seconds |
| `ProcessingVerdicts.ValidateFinalization` | backend/src/document_processing/finalization.rs:458-589 | the loop names the first check that fails, of access, the whole set and the formats of the operation in that order, and publishes exactly when all hold |
| `ProcessingVerdicts.JudgedMeans` | backend/src/document_processing/finalization.rs:525-608 | row by row: published exactly if access allows, each file is an expected one of its kind, size and digest with the required ones there, and the PDF, PPTX, workspace, report and log files hold their formats; otherwise the refusal in the order of the checks |
| `ProcessingResults.PublishedMeetsContract` | backend/src/document_processing/finalization.rs:797-834 | a validated set, inserted, has one row per role, all required roles, no foreign one and true sizes |
| `ProcessingInvariant.RemovalFits` | backend/src/document_processing/finalization.rs:295-309 | deleting any jobs keeps the tables in order; a job that stays keeps its source with artifacts, or has its link cleared exactly when the source is among the deleted |
| `ProcessingInvariant.SweepFits` | backend/src/document_processing/finalization.rs:310-317 | blob collection keeps every blob a row refers to |
| `ProcessingOutcomes.MaintainedOutcome` | backend/src/document_processing/finalization.rs:153-319 | every table after a pass: each lost claim cancelled, queued again with its backoff, expired or failed as its job demands, overdue jobs expired, files past their deadline expired, exactly the due jobs deleted with their rows, and exactly the unneeded blobs |
| `ProcessingInvariant.PublicationFits` | backend/src/document_processing/finalization.rs:611-642 | publishing a validated result keeps all tables in order |
| `ProcessingOutcomes.PublishedOutcome` | backend/src/document_processing/finalization.rs:611-834 | every table after a publication: one artifact for each staged row and no other, its transfers consumed, the job succeeded, and a new project for an import alone |
| `ProcessingFinalizers.MaintenanceKeepsFiles` | backend/src/document_processing/finalization.rs:153-319 | a maintenance pass keeps the rows and files of every job that stays, and changes no file |
| `ProcessingTheorems.StepFits` | backend/src/document_processing/finalization.rs:343-391 | every transaction keeps tables, leases, limits and history consistent |
| `ProcessingTheorems.PublishedExactlyOnce` | backend/src/document_processing/finalization.rs:611-775 | over all runs of concurrent finalizers each succeeded job is published once and yields at most one project |
| `ProcessingTheorems.LeaseHolderCanPublish` | backend/src/document_processing/finalization.rs:611-642 | as long as its job has the link it was leased with, the holder of a lease finds every file it loaded still stored, so nothing but the lease can stop the publication |
| `ProcessingTheorems.SupersededForGood` | backend/src/document_processing/finalization.rs:343-391 | once another finalizer has leased the job, the earlier token is never current again in any continuation, loads nothing, and its publication or refusal changes no row |
| `ProcessingTheorems.ArtifactsMeetContract` | backend/src/document_processing/finalization.rs:487-522 | artifacts exist only for succeeded jobs and meet the operation's contract |
| `ProcessingTheorems.ReferencesHold` | backend/src/document_processing/finalization.rs:295-318 | no file that a job input, transfer or artifact refers to is ever deleted, and a link to a cached result always names a job that is there |
| `ProcessingTheorems.AdmissionHolds` | backend/src/document_processing/persistence.rs:133-240 | active jobs stay within all three limits and a key names at most one job |
| `ProcessingTheorems.RequeuesAreBounded` | backend/src/document_processing/finalization.rs:177-265 | lease expiry requeues a job at most one time less than its attempts |
| `ProcessingTheorems.EndsAreFinal` | backend/src/document_processing/persistence.rs:452-517 | over any run terminal jobs never change, but for a link that may be cleared, completion is set exactly then, tokens only while finalizing, and a job asked to cancel is never queued, finalizing or succeeded again |
| `ProcessingTheorems.CacheHitIsSafe` | backend/src/document_processing/finalization.rs:295-309 | in every reachable state a finalizing cache hit keeps its source, with the same non-empty artifacts and contents, in every continuation if and only if no maintenance pass under way has chosen that source |
| `ProcessingTheorems.LinkIsSafe` | backend/src/document_processing/worker_persistence.rs:418-470 | at the commit of the link: from then on the source is kept in every continuation if and only if no pass had chosen it before |
| `ProcessingTheorems.CacheHitLoadsItsResult` | backend/src/document_processing/finalization.rs:393-416 | what a current finalizer of a cache hit loads meets the contract while the job has its link, and is nothing at all once that is cleared |
| `ProcessingCacheHits.PickedHitIsRefused` | backend/src/document_processing/finalization.rs:291-309 | in every reachable state a finalizing cache hit whose source a pass has chosen fails in some continuation, with nothing to publish |
| `ProcessingCacheHits.RetentionTakesTheSource` | backend/src/document_processing/finalization.rs:291-309 | a run from empty tables in which a cached result is chosen for deletion before the link to it commits, and the second job fails |
| `ProcessingExpiry.DeliveryAfterMaintenance` | backend/src/document_processing/finalization.rs:284-290 | a delivered result judged publishable before a pass is so after it exactly when each required file has its deadline ahead, and is otherwise refused as incomplete, under any token |
| `ProcessingExpiry.LoadedIsDelivery` | backend/src/document_processing/finalization.rs:417-438 | whoever leased a job without a cache source loads exactly its delivered files while the token is current |
| `ProcessingRefusals.PublishableAfterMaintenance` | backend/src/document_processing/finalization.rs:284-290 | in every reachable state, a publishable result that nobody has loaded yet is published in some continuation of a maintenance pass if and only if each required file has its deadline ahead |
| `ProcessingRefusals.FinalizerRuns` | backend/src/document_processing/finalization.rs:321-341 | a finalizer that takes a free delivered job to its end publishes it, refuses it or leaves it, as its result is judged |
| `ProcessingExamples.DeliveredInTimeOrRefused` | backend/src/document_processing/finalization.rs:284-290 | a run from empty tables in which a delivered document is published when maintenance and finalizer come before its deadline and fails when they come later |
| `ProcessingStore.DocumentProcessing.ReserveJob` | backend/src/document_processing/persistence.rs:133-240 | the same key returns the job or a conflict, the limits on jobs that have not ended refuse in order, and only a reservation adds a job, preparing, with its deadlines |
| `ProcessingStore.DocumentProcessing.StoreBlob` | backend/src/document_processing/persistence.rs:591-613 | content is stored once under its digest and size |
| `ProcessingStore.DocumentProcessing.StorePreparedInput` | backend/src/document_processing/persistence.rs:312-362 | queues exactly a preparing job that was not cancelled; otherwise nothing remains |
| `ProcessingStore.DocumentProcessing.MarkPreparationFailed` | backend/src/document_processing/persistence.rs:364-390 | a preparing job becomes failed at that time; a job in any other state, and every other job, stays as it was |
| `ProcessingStore.DocumentProcessing.CancelJob` | backend/src/document_processing/persistence.rs:452-517 | cancels a waiting job at once, asks a running one to stop, leaves every other job alone |
| `ProcessingStore.DocumentProcessing.MaintainLifecycle` | backend/src/document_processing/finalization.rs:153-319 | one pass reclaims the lost claims that expired first, at most sixteen and all if there are fewer, with the outcome of a pass in every table |
| `ProcessingStore.DocumentProcessing.AcquireFinalizationLease` | backend/src/document_processing/finalization.rs:343-391 | leases the free finalizing job untouched for longest under a token never used before, or proves there is none |
| `ProcessingStore.DocumentProcessing.LoadStagedArtifacts` | backend/src/document_processing/finalization.rs:393-451 | every staged row once, in the order of roles, under a current token; nothing under another, or once a leased source is no longer linked |
| `ProcessingStore.DocumentProcessing.PublishResult` | backend/src/document_processing/finalization.rs:611-642 | publishes exactly under a held lease with all files stored, and then in contract |
| `ProcessingStore.DocumentProcessing.FinalizeOne` | backend/src/document_processing/finalization.rs:321-341 | one free job ends published in contract, refused without artifacts, or still finalizing; so it stays too when the lease has run out before publication |
| `OidcSync.SyncIsDetermined` | backend/src/access/oidc_group.rs:136-252 | the declarative outcome determines all memberships |
| `OidcSync.SyncIsIdempotent` | backend/src/access/oidc_group.rs:136-252 | synchronising again changes no membership, reports no changed organisation and moves no project epoch |
| `OidcSync.OwnersStayOwners` | backend/src/access/organization_persistence.rs:109-133 | over any run of synchronisations an owner stays an owner |
| `OidcSync.NoOwnerFromNothing` | backend/src/access/oidc_group.rs:177-190 | a user ends as owner exactly if already owner or mapped to it |
| `OidcSync.UpsertNeededIffRoleChanges` | backend/src/access/oidc_group.rs:276-283 | the upsert test is true exactly when the role would change |
| `OidcSync.AccessStore.DesiredRoles` | backend/src/access/oidc_group.rs:177-190 | the loop finds the highest mapped role of every organisation |
| `OidcSync.AccessStore.UpsertMembership` | backend/src/access/organization_persistence.rs:109-133 | the user ends with the role a desired one leads to, an owner stays owner, and no other membership changes |
| `OidcSync.AccessStore.DeleteNonOwner` | backend/src/access/organization_persistence.rs:135-149 | the user ends as a mapped organisation leaves someone not desired: gone unless owner; no other membership changes |
| `OidcSync.AccessStore.AdvanceProjectEpochs` | backend/src/access/grant_persistence.rs:86-117 | each affected project rises by exactly one epoch and no other moves |
| `OidcSync.AccessStore.SyncIdentityGroups` | backend/src/access/oidc_group.rs:136-252 | the user ends as owner where already one or led there by a group mapped to owner, as member where any other group leads, out of any other organisation that a mapping names, and as before where none does; exactly the projects granted to an organisation with a changed role advance, by one |
| `Grants.EffectiveRoleAgreesWithGate` | backend/src/access/authorization.rs:120-154 | the effective role passes a need exactly when the gate does |
| `Grants.GateMeans` | backend/src/access/authorization.rs:361-369 | any access reads; an owner, a read-write role or a write permission writes; owners alone manage and use Git |
| `Grants.AccessList.MergeAccessUser` | backend/src/access/grant.rs:245-273 | merging one grant keeps the highest role and each source once |
| `Grants.AccessList.ListProjectAccessUsers` | backend/src/access/grant.rs:206-243 | exactly the users of some row, each with the highest role any row gives, what that lets them do, and every source once |
| `Grants.OrderDoesNotMatter` | backend/src/access/grant.rs:206-273 | any order of the same grants gives the same users, roles and sources |
| `Grants.ListAgreesWithGate` | backend/src/access/authorization.rs:361-369 | listed iff reading is allowed, listed as write or manage iff writing is, owner iff managing is |
| `ProjectBundle.SortInPlace` | backend/src/document_processing/project_input.rs:219-219 | the array is sorted by path in place |
| `ProjectBundle.SortedIsUnique` | backend/src/document_processing/project_input.rs:219-226 | with distinct paths there is only one sorted order |
| `TextOrder.TextLeMeans` | backend/src/document_processing/project_input.rs:219-219 | a path comes first exactly if it begins the other or has the smaller character where they first differ |
| `ProjectBundle.CheckedTotal` | backend/src/document_processing/project_input.rs:233-242 | the overflow-checked fold yields a sum exactly when the true sum fits |
| `ProjectBundle.OrderDoesNotMatter` | backend/src/document_processing/project_input.rs:187-245 | any order of the same files gives the same error or the same sorted list |
| `ProjectBundle.MaterializeBundle` | backend/src/document_processing/project_input.rs:187-245 | the checks in their order, each error exactly under its condition; a bundle is the sorted files, with distinct paths, the entry document and a total within the limit |
| `AccountPolicy.SanitizeUsernameSeed` | backend/src/access/account_policy.rs:41-103 | the loops compute a valid username for every input |
| `AccountPolicy.SanitizedIsClean` | backend/src/access/account_policy.rs:41-103 | the result is valid and lower-case with single separators, so the fallback is never reached |
| `AccountPolicy.NameIsSpelled` | backend/src/access/account_policy.rs:41-103 | the name is the input spelled in lower case with one separator for each run of other characters, without one at the ends, padded to two and cut at 64 |
| `AccountPolicy.SanitizingIsIdempotent` | backend/src/access/account_policy.rs:41-103 | sanitising twice changes nothing, and exactly the clean names are left alone |
| `AccountPolicy.CandidatesAreValid` | backend/src/access/account_policy.rs:105-124 | the first candidate is the name itself; every other is its first 58 characters, a hyphen and the suffix, valid and at most 64 long |

## Left out

- Yjs encoding: an update is a set of operations and merging is union, the free join semilattice; decoding errors, and that the real encoding preserves the value of a document, are outside the model.
- SQL, storage, the network, ZIP, SHA-256, clocks and random values: tables are maps, `now` only grows, tokens and identifiers are fresh numbers, digests an arbitrary function, the PPTX, JSON and Workspace format checks arbitrary predicates.
- `CollabSystem` keeps locks to the end of a transaction and lets any transaction abort at any time; that waiting transactions may deadlock (a capture takes the content lock before document locks, a bootstrap the other way round) is resolved by such an abort, and liveness under contention is not stated.
- Deleting projects and users, and the cascades of that, are not modelled; deleting, creating, rewriting and replacing documents are.
- Unsupported update kinds in the log are skipped by the source while loading; the two kinds it writes are the only ones modelled.
- Permission changes that do not raise the access epoch (session expiry, anonymous mode, new guest sessions, site administrators) are not part of the room model, nor are panics and crashes of socket tasks; a request that commits an epoch advance is taken to go on to its broadcast.
- `RoomRuns.Apply`: presence, cursors and acknowledgements are one kind of relayed event; draining and the periodic revalidation appear as a socket that quits.
- Authentication, guest sessions and share tokens: a socket is a user with a read and a write permission per project and epoch.
- Worker sessions, processor registration, heartbeats' exact deadlines and the worker request log: a claim, upload, delivery, failure or heartbeat is an environment step with the guard of its job; delivery does not repeat the set check of `complete_claim`, which finalization repeats.
- `ProcessingRuns.Apply`: the statements of a maintenance pass before its retention delete take effect when they are made, although others see them at the commit only and wait for the rows until then; a pass that is rolled back is one that took no step. The locks of a claim between reading a result and linking to it are not modelled, only the guard it was taken under.
- Texts are ordered by their characters, where the database orders roles by its own collation.
- `ProcessingStore.DocumentProcessing.FinalizeOne`: its three transactions follow one another, only the clock moving in between; what others do meanwhile is the subject of `ProcessingRuns`.
- Input asset pins, job phases, failure texts and timestamps other than completion and the last update are not modelled.
- `Grants.AccessList.ListProjectAccessUsers`: the final sorting of users by display name and of sources is not modelled; the content is.
- `ProjectBundle.MaterializeBundle`: the manifest, the archive and its own size check come after what is modelled; a path is compared by characters, as its UTF-8 bytes would be.
- `AccountPolicy.ValidUsername`: lengths are counted in characters, which equals bytes for every name that passes.
- The user interface, OIDC token exchange, sessions, audit, HTTP error mapping, deployment configuration: plumbing without a deep invariant of its own.
