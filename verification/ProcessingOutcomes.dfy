/** What the transactions of document processing do to their rows, written out field by field. */
module ProcessingOutcomes {
  import opened Wrappers
  import opened ProcessingModel
  import opened ProcessingTables
  import opened ProcessingResults
  import opened ProcessingInvariant
  import opened ProcessingFinalizers

  // ---- single jobs ----

  /** Waits for a worker or for its input, and nobody waits for it any longer. */
  predicate Overdue(job: Job, now: int) {
    (job.state == Preparing || job.state == Queued) && job.queueExpires <= now
  }

  predicate ClosedAs(job: Job, job': Job, state: JobState, now: int) {
    job' == job.(state := state, claim := None, token := None, updatedAt := now, completedAt := Some(now))
  }

  /** A lost claim: cancelled if that was asked for, queued again with a backoff while attempts and
    time are left, expired when the time is over, and otherwise failed. */
  predicate LostClaim(job: Job, job': Job, now: int) {
    if job.cancelRequested then ClosedAs(job, job', Cancelled, now)
    else if job.attempts < 3 && job.queueExpires > now then
      && job'.state == Queued && job'.claim == None && job'.completedAt == None
      && job'.nextAttempt == now + (if job.attempts <= 1 then 1 else 2)
      && job' == job.(state := Queued, claim := None, nextAttempt := job'.nextAttempt, updatedAt := now)
    else if job.queueExpires <= now then ClosedAs(job, job', Expired, now)
    else ClosedAs(job, job', Failed, now)
  }

  /** A job after a pass that reclaimed it or not. */
  predicate AfterPass(job: Job, reclaimed: bool, now: int, job': Job) {
    if reclaimed then LostClaim(job, job', now)
    else if Overdue(job, now) then ClosedAs(job, job', Expired, now)
    else job' == job
  }

  lemma AgedOutcome(job: Job, reclaimed: bool, now: int)
    requires JobFits(job) && (reclaimed ==> job.state == Running && job.claimExpires <= now)
    ensures AfterPass(job, reclaimed, now, AgedJob(job, reclaimed, now))
  {
    assert PowerOfTwo(1) == 2;
  }

  // ---- a pass ----

  /** Ended, past its retention, and the source of nobody. */
  predicate DueForDeletion(db: Tables, id: nat, job': Job, now: int) {
    job'.completedAt.Some? && job'.retainedUntil <= now && forall other :: other in db.jobs ==> db.jobs[other].cacheSource != Some(id)
  }

  /** A file on its way expires with its deadline or with the claim it belongs to. */
  predicate TransferAfterPass(db: Tables, batch: set<nat>, now: int, transfer: Transfer, transfer': Transfer) {
    var lost := transfer.job in batch && transfer.job in db.jobs && transfer.attempt == db.jobs[transfer.job].attempts;
    if (transfer.state == Issued || transfer.state == Uploaded) && (lost || transfer.expires <= now)
    then transfer' == transfer.(state := TransferExpired)
    else transfer' == transfer
  }

  predicate Needed(db: Tables, blob: nat) {
    || (exists id :: id in db.jobs && db.jobs[id].inputBlob == Some(blob))
    || (exists t :: t in db.transfers && db.transfers[t].blob == Some(blob))
    || (exists key :: key in db.artifacts && db.artifacts[key].blob == blob)
  }

  /** Every table after a pass that reclaimed `batch`. */
  ghost predicate PassOutcome(db: Tables, batch: set<nat>, now: int, db': Tables) {
    && (forall id :: id in db'.jobs ==> id in db.jobs && AfterPass(db.jobs[id], id in batch, now, db'.jobs[id]))
    && (forall id :: id in db.jobs && id !in db'.jobs ==>
          exists job' :: AfterPass(db.jobs[id], id in batch, now, job') && DueForDeletion(db, id, job', now))
    && (forall id :: id in db'.jobs ==> !DueForDeletion(db, id, db'.jobs[id], now))
    && (forall t :: t in db'.transfers <==> t in db.transfers && db.transfers[t].job in db'.jobs)
    && (forall t :: t in db'.transfers ==> TransferAfterPass(db, batch, now, db.transfers[t], db'.transfers[t]))
    && (forall key :: key in db'.artifacts <==> key in db.artifacts && key.0 in db'.jobs)
    && (forall key :: key in db'.artifacts ==> db'.artifacts[key] == db.artifacts[key])
    && (forall a :: a in db'.delivered ==> a in db.delivered)
    && (forall b :: b in db'.blobs <==> b in db.blobs && Needed(db', b))
    && (forall b :: b in db'.blobs ==> db'.blobs[b] == db.blobs[b])
    && db'.projects == db.projects && db'.nextId == db.nextId
  }

  lemma AgedTransferOutcome(db: Tables, batch: set<nat>, now: int, t: nat)
    requires t in db.transfers && forall id :: id in batch ==> ClaimExpired(db, id, now)
    ensures t in Aged(db, batch, now).transfers
    ensures TransferAfterPass(db, batch, now, db.transfers[t], Aged(db, batch, now).transfers[t])
  {
  }

  lemma NothingUnlinked(db: Tables, now: int, id: nat)
    requires id in db.jobs
    ensures Unlinked(db.jobs[id], DeletableJobs(db, now)) == db.jobs[id]
  {
    if db.jobs[id].cacheSource.Some? {
      ChosenHasNoDependent(db, now, id);
    }
  }

  lemma PassAges(config: Config, db: Tables, batch: set<nat>, now: int, aged: Tables)
    requires TablesFit(config, db) && forall id :: id in batch ==> ClaimExpired(db, id, now)
    requires aged == Aged(db, batch, now)
    ensures aged.jobs.Keys == db.jobs.Keys
    ensures forall id :: id in db.jobs ==>
      AfterPass(db.jobs[id], id in batch, now, aged.jobs[id]) && aged.jobs[id].cacheSource == db.jobs[id].cacheSource
  {
    AgedTables(db, batch, now);
    forall id | id in db.jobs
      ensures AfterPass(db.jobs[id], id in batch, now, aged.jobs[id]) && aged.jobs[id].cacheSource == db.jobs[id].cacheSource
    {
      AgedOutcome(db.jobs[id], id in batch, now);
    }
  }

  lemma PassJobs(config: Config, db: Tables, batch: set<nat>, now: int, aged: Tables, db': Tables)
    requires TablesFit(config, db) && forall id :: id in batch ==> ClaimExpired(db, id, now)
    requires aged == Aged(db, batch, now) && db' == Retired(aged, DeletableJobs(aged, now))
    ensures forall id :: id in db'.jobs <==> id in db.jobs && !Deletable(aged, id, now)
    ensures forall id :: id in db'.jobs ==> AfterPass(db.jobs[id], id in batch, now, db'.jobs[id])
    ensures forall id :: id in db.jobs ==>
      AfterPass(db.jobs[id], id in batch, now, aged.jobs[id])
      && (Deletable(aged, id, now) <==> DueForDeletion(db, id, aged.jobs[id], now))
  {
    PassAges(config, db, batch, now, aged);
    PassDeletes(aged, now, db');
  }

  lemma PassDeletes(aged: Tables, now: int, db': Tables)
    requires db' == Retired(aged, DeletableJobs(aged, now))
    ensures forall id :: id in db'.jobs <==> id in aged.jobs && !Deletable(aged, id, now)
    ensures forall id :: id in db'.jobs ==> db'.jobs[id] == aged.jobs[id]
  {
    RemovedRows(aged, Removed(aged, DeletableJobs(aged, now)), DeletableJobs(aged, now));
    forall id | id in aged.jobs
      ensures Unlinked(aged.jobs[id], DeletableJobs(aged, now)) == aged.jobs[id]
    {
      NothingUnlinked(aged, now, id);
    }
  }

  lemma PassRows(db: Tables, batch: set<nat>, now: int, aged: Tables, db': Tables)
    requires RowsFit(db) && forall id :: id in batch ==> ClaimExpired(db, id, now)
    requires aged == Aged(db, batch, now) && db' == Retired(aged, DeletableJobs(aged, now))
    ensures forall t :: t in db'.transfers <==> t in db.transfers && db.transfers[t].job in db'.jobs
    ensures forall t :: t in db'.transfers ==> TransferAfterPass(db, batch, now, db.transfers[t], db'.transfers[t])
    ensures forall key :: key in db'.artifacts <==> key in db.artifacts && key.0 in db'.jobs
    ensures forall key :: key in db'.artifacts ==> db'.artifacts[key] == db.artifacts[key]
    ensures db'.delivered <= db.delivered && db'.projects == db.projects && db'.nextId == db.nextId
  {
    AgedTables(db, batch, now);
    AgedTransfers(db, batch, now);
    RemovedRows(aged, Removed(aged, DeletableJobs(aged, now)), DeletableJobs(aged, now));
    forall t | t in db.transfers
      ensures TransferAfterPass(db, batch, now, db.transfers[t], aged.transfers[t])
      ensures db.transfers[t].job in db.jobs
    {
      AgedTransferOutcome(db, batch, now, t);
      assert TransferFits(db, db.transfers[t]);
    }
  }

  lemma PassBlobs(db: Tables, batch: set<nat>, now: int, aged: Tables, db': Tables)
    requires aged == Aged(db, batch, now) && db' == Retired(aged, DeletableJobs(aged, now))
    ensures forall b :: b in db'.blobs <==> b in db.blobs && Needed(db', b)
    ensures forall b :: b in db'.blobs ==> db'.blobs[b] == db.blobs[b]
  {
    AgedTables(db, batch, now);
    var left := Removed(aged, DeletableJobs(aged, now));
    forall b
      ensures Referenced(left, b) <==> Needed(db', b)
    {
    }
  }

  lemma MaintainedOutcome(config: Config, db: Tables, batch: set<nat>, now: int, db': Tables)
    requires TablesFit(config, db) && forall id :: id in batch ==> ClaimExpired(db, id, now)
    requires db' == Maintained(db, batch, now)
    ensures PassOutcome(db, batch, now, db')
  {
    var aged := Aged(db, batch, now);
    PassJobs(config, db, batch, now, aged, db');
    PassRows(db, batch, now, aged, db');
    PassBlobs(db, batch, now, aged, db');
  }

  // ---- admission ----

  /** The answer and the tables after an admission: the same key returns its job or a conflict, then
    the three limits in their order on jobs that have not ended, and only then a new job. */
  ghost predicate AdmissionOutcome(config: Config, db: Tables, command: Command, now: int, admission: Admission, db': Tables) {
    if exists id :: id in db.jobs && db.jobs[id].idempotency == command.idempotency then
      db' == db && exists id :: id in db.jobs && db.jobs[id].idempotency == command.idempotency
                                && admission == if db.jobs[id].digest == command.digest then Existing(id) else Conflict
    else if |set id | id in db.jobs && db.jobs[id].completedAt.None?| >= config.maxJobs then
      db' == db && admission == GlobalLimit
    else if |set id | id in db.jobs && db.jobs[id].completedAt.None?
                     && db.jobs[id].idempotency.requester == command.idempotency.requester| >= config.maxPerUser then
      db' == db && admission == RequesterLimit
    else if command.project.Some?
            && |set id | id in db.jobs && db.jobs[id].completedAt.None? && db.jobs[id].project == command.project|
               >= config.maxPerProject then
      db' == db && admission == ProjectLimit
    else
      && admission == Reserved(db.nextId) && db.nextId !in db.jobs && db.nextId in db'.jobs
      && db' == db.(nextId := db.nextId + 1, jobs := db.jobs[db.nextId := db'.jobs[db.nextId]])
      && NewlyReserved(db'.jobs[db.nextId], command, now)
  }

  predicate NewlyReserved(job: Job, command: Command, now: int) {
    && job.operation == command.operation && job.project == command.project && job.idempotency == command.idempotency
    && job.digest == command.digest && job.namesProject == command.namesProject
    && job.maxAttempts == 3 && job.attempts == 0 && job.state == Preparing && !job.cancelRequested
    && job.queueExpires == now + command.queueWait && job.retainedUntil == now + command.retention
    && job.nextAttempt == now && job.updatedAt == now
    && job.claim == None && job.inputBlob == None && job.cacheSource == None && job.token == None
    && job.completedAt == None && job.resultProject == None
  }

  /** Active jobs are those that have not ended. */
  lemma ActiveHasNotEnded(jobs: map<nat, Job>, requester: nat, project: nat)
    requires forall id :: id in jobs ==> JobFits(jobs[id])
    ensures ActiveJobs(jobs) == set id | id in jobs && jobs[id].completedAt.None?
    ensures ActiveOf(jobs, requester)
            == set id | id in jobs && jobs[id].completedAt.None? && jobs[id].idempotency.requester == requester
    ensures ActiveIn(jobs, project)
            == set id | id in jobs && jobs[id].completedAt.None? && jobs[id].project == Some(project)
  {
  }

  lemma AdmittedOutcome(config: Config, db: Tables, command: Command, now: int)
    requires JobsFit(db) && Named(db.jobs, command.idempotency) == {}
    ensures FullFor(config, db, command).Some? ==>
      AdmissionOutcome(config, db, command, now, FullFor(config, db, command).value, db)
    ensures FullFor(config, db, command).None? ==>
      AdmissionOutcome(config, db, command, now, Reserved(db.nextId), AddJob(db, command, now))
  {
    forall id | id in db.jobs
      ensures db.jobs[id].idempotency != command.idempotency
    {
      assert id !in Named(db.jobs, command.idempotency);
    }
    ActiveHasNotEnded(db.jobs, command.idempotency.requester, if command.project.Some? then command.project.value else 0);
    assert command.project.Some? ==>
      (set id | id in db.jobs && db.jobs[id].completedAt.None? && db.jobs[id].project == command.project)
      == ActiveIn(db.jobs, command.project.value);
  }

  // ---- requests on one job ----

  /** Cancelled at once while nobody works on it, only asked to stop while a worker does, and left
    alone from finalization on. */
  predicate CancelOutcome(job: Job, job': Job, now: int) {
    if job.state == Preparing || job.state == Queued then ClosedAs(job.(cancelRequested := true), job', Cancelled, now)
    else if job.state == Running then job' == job.(cancelRequested := true, updatedAt := now)
    else job' == job
  }

  lemma CancelledOutcome(job: Job, now: int)
    ensures CancelOutcome(job, Next(job, CancelAsked, now), now)
  {
  }

  predicate QueuedWith(job: Job, job': Job, blob: nat, now: int) {
    job' == job.(state := Queued, inputBlob := Some(blob), updatedAt := now)
  }

  predicate LeasedWith(job: Job, job': Job, token: nat, expires: int, now: int) {
    job' == job.(token := Some(token), tokenExpires := expires, updatedAt := now)
  }

  // ---- publication ----

  /** Every table after a publication: the job succeeded, each staged row is an artifact of it, every
    staged transfer is consumed, and an import has its new project. */
  ghost predicate PublicationOutcome(db: Tables, id: nat, staged: seq<StagedArtifact>, project: nat, now: int, db': Tables) {
    && id in db.jobs && id in db'.jobs && db'.jobs == db.jobs[id := db'.jobs[id]]
    && var import_ := db.jobs[id].operation == PptxImportTypst;
    && db'.jobs[id] == db.jobs[id].(state := Succeeded, claim := None, token := None, updatedAt := now,
                                    completedAt := Some(now), resultProject := if import_ then Some(project) else None)
    && db'.projects == (if import_ then db.projects + {project} else db.projects)
    && (forall key :: key in db.artifacts ==> key in db'.artifacts && db'.artifacts[key] == db.artifacts[key])
    && (forall row :: row in staged ==>
          (id, row.role) in db'.artifacts
          && db'.artifacts[(id, row.role)] == Artifact(row.blob, row.mediaType, row.filename, row.size, row.digest))
    && (forall key :: key in db'.artifacts && key !in db.artifacts ==>
          key.0 == id && exists row :: row in staged && row.role == key.1)
    && db'.transfers.Keys == db.transfers.Keys
    && (forall t :: t in db.transfers ==>
          db'.transfers[t] == if exists row :: row in staged && row.transfer == Some(t)
                              then db.transfers[t].(state := Consumed) else db.transfers[t])
    && db'.blobs == db.blobs && db'.delivered == db.delivered
  }

  lemma PublishedOutcome(config: Config, db: Tables, id: nat, token: nat, staged: seq<StagedArtifact>, project: nat, now: int,
                         db': Tables)
    requires RowsFit(db) && MayPublish(db, id, token, staged, now) && SetOk(config, db.jobs[id].operation, staged)
    requires db.jobs[id].resultProject.None?
    requires db' == PublishedResult(db, id, token, staged, project, now)
    ensures PublicationOutcome(db, id, staged, project, now, db')
  {
    assert forall role :: (id, role) !in db.artifacts;
    InsertedRows(db.artifacts, id, staged);
    forall row | row in staged
      ensures (id, row.role) in db'.artifacts && db'.artifacts[(id, row.role)] == RowArtifact(row)
    {
      var i :| 0 <= i < |staged| && staged[i] == row;
    }
    forall key | key in db'.artifacts && key !in db.artifacts
      ensures key.0 == id && exists row :: row in staged && row.role == key.1
    {
      var i :| 0 <= i < |staged| && staged[i].role == key.1;
      assert staged[i] in staged;
    }
  }
}
