/** The tables of document processing and the statements that change them
  (backend/src/document_processing/persistence.rs and finalization.rs). */
module ProcessingTables {
  import opened Wrappers
  import opened ProcessingModel

  datatype Blob = Blob(digest: int, content: string)

  datatype TransferState = Issued | Uploaded | Consumed | TransferExpired

  /** A file on its way to or from a worker; `attempt` is the attempt number of its job. */
  datatype Transfer = Transfer(
    job: nat, attempt: nat, upload: bool, role: string, mediaType: string, filename: string,
    size: int, digest: int, blob: Option<nat>, state: TransferState, expires: int)

  datatype Artifact = Artifact(blob: nat, mediaType: string, filename: string, size: int, digest: int)

  /** `delivered` are the attempts whose worker has closed them by delivering; `nextId` numbers
    every new row and token, so no identifier is ever used twice. */
  datatype Tables = Tables(
    jobs: map<nat, Job>,
    delivered: set<(nat, nat)>,
    transfers: map<nat, Transfer>,
    artifacts: map<(nat, string), Artifact>,
    blobs: map<nat, Blob>,
    projects: set<nat>,
    nextId: nat)

  /** Limits of the deployment, and what the format checkers say of a file's content. */
  datatype Config = Config(
    maxJobs: nat, maxPerUser: nat, maxPerProject: nat,
    maxOutput: int, maxDiagnostic: int,
    digestOf: string -> int,
    isUtf8: string -> bool, isPptx: string -> bool, isWorkspace: string -> bool,
    reportSchema: string -> Option<string>)

  datatype StagedArtifact = StagedArtifact(
    transfer: Option<nat>, blob: nat, role: string, mediaType: string, filename: string,
    size: int, digest: int, content: string)

  // ---- jobs ----

  function ActiveJobs(jobs: map<nat, Job>): set<nat> {
    set id | id in jobs && Active(jobs[id].state)
  }

  function ActiveOf(jobs: map<nat, Job>, requester: nat): set<nat> {
    set id | id in jobs && Active(jobs[id].state) && jobs[id].idempotency.requester == requester
  }

  function ActiveIn(jobs: map<nat, Job>, project: nat): set<nat> {
    set id | id in jobs && Active(jobs[id].state) && jobs[id].project == Some(project)
  }

  /** One job takes an event; a missing job takes none. */
  function WithJob(db: Tables, id: nat, e: JobEvent, now: int): Tables {
    if id in db.jobs then db.(jobs := db.jobs[id := Next(db.jobs[id], e, now)]) else db
  }

  datatype Command = Command(
    operation: Operation, project: Option<nat>, idempotency: Idempotency, digest: int,
    namesProject: bool, queueWait: nat, retention: nat)

  datatype Admission = Reserved(id: nat) | Existing(id: nat) | Conflict | GlobalLimit | RequesterLimit | ProjectLimit

  function NewJob(command: Command, now: int): Job {
    Job(command.operation, command.project, command.idempotency, command.digest, command.namesProject,
        MAX_ATTEMPTS, now + command.queueWait, now + command.retention,
        Preparing, false, 0, None, now, now, None, None, None, now, now, None, None)
  }

  /** The jobs that carry an idempotency key. */
  function Named(jobs: map<nat, Job>, idempotency: Idempotency): set<nat> {
    set id | id in jobs && jobs[id].idempotency == idempotency
  }

  function FullFor(config: Config, db: Tables, command: Command): Option<Admission> {
    if |ActiveJobs(db.jobs)| >= config.maxJobs then Some(GlobalLimit)
    else if |ActiveOf(db.jobs, command.idempotency.requester)| >= config.maxPerUser then Some(RequesterLimit)
    else if command.project.Some? && |ActiveIn(db.jobs, command.project.value)| >= config.maxPerProject
    then Some(ProjectLimit)
    else None
  }

  function AddJob(db: Tables, command: Command, now: int): Tables {
    db.(jobs := db.jobs[db.nextId := NewJob(command, now)], nextId := db.nextId + 1)
  }

  // ---- blobs ----

  predicate SameBlob(blob: Blob, digest: int, content: string) {
    blob.digest == digest && |blob.content| == |content|
  }

  /** The identifier under which a file with this digest and size is stored, if it is. */
  predicate StoredAs(db: Tables, id: nat, digest: int, content: string) {
    id in db.blobs && SameBlob(db.blobs[id], digest, content)
  }

  /** Some row still refers to the blob. */
  predicate Referenced(db: Tables, blob: nat) {
    || (exists id :: id in db.jobs && db.jobs[id].inputBlob == Some(blob))
    || (exists id :: id in db.transfers && db.transfers[id].blob == Some(blob))
    || (exists key :: key in db.artifacts && db.artifacts[key].blob == blob)
  }

  // ---- maintenance ----

  /** Running jobs whose claim has expired. */
  predicate ClaimExpired(db: Tables, id: nat, now: int) {
    id in db.jobs && db.jobs[id].state.Running? && db.jobs[id].claimExpires <= now
  }

  /** Lost claims: the job is requeued or closed and the files of that claim expire. */
  function ReclaimedJobs(db: Tables, batch: set<nat>, now: int): Tables {
    db.(jobs := map id | id in db.jobs :: if id in batch then Next(db.jobs[id], ClaimLost, now) else db.jobs[id],
        transfers := map t | t in db.transfers ::
          if db.transfers[t].job in batch && ClaimExpired(db, db.transfers[t].job, now)
             && db.transfers[t].attempt == db.jobs[db.transfers[t].job].attempts
          then ExpiredTransfer(db.transfers[t]) else db.transfers[t])
  }

  function ExpiredTransfer(transfer: Transfer): Transfer {
    if transfer.state.Issued? || transfer.state.Uploaded? then transfer.(state := TransferExpired) else transfer
  }

  function TimedOutJobs(db: Tables, now: int): Tables {
    db.(jobs := map id | id in db.jobs :: Next(db.jobs[id], QueueTimedOut, now))
  }

  function TimedOutTransfers(db: Tables, now: int): Tables {
    db.(transfers := map t | t in db.transfers ::
      if db.transfers[t].expires <= now then ExpiredTransfer(db.transfers[t]) else db.transfers[t])
  }

  predicate Deletable(db: Tables, id: nat, now: int) {
    && id in db.jobs && db.jobs[id].retainedUntil <= now && db.jobs[id].completedAt.Some?
    && (forall other :: other in db.jobs ==> db.jobs[other].cacheSource != Some(id))
  }

  function DeletableJobs(db: Tables, now: int): set<nat> {
    set id | id in db.jobs && Deletable(db, id, now)
  }

  function Unlinked(job: Job, doomed: set<nat>): Job {
    if job.cacheSource.Some? && job.cacheSource.value in doomed then job.(cacheSource := None) else job
  }

  /** Deleting jobs takes their attempts, transfers and artifacts with them and clears every link to them. */
  function Removed(db: Tables, doomed: set<nat>): Tables {
    db.(jobs := map id | id in db.jobs && id !in doomed :: Unlinked(db.jobs[id], doomed),
        delivered := (set a | a in db.delivered && a.0 !in doomed),
        transfers := map t | t in db.transfers && db.transfers[t].job !in doomed :: db.transfers[t],
        artifacts := map key | key in db.artifacts && key.0 !in doomed :: db.artifacts[key])
  }

  function SweptBlobs(db: Tables): Tables {
    db.(blobs := map b | b in db.blobs && Referenced(db, b) :: db.blobs[b])
  }

  /** The part of a pass before anything is deleted. */
  function Aged(db: Tables, batch: set<nat>, now: int): Tables {
    TimedOutTransfers(TimedOutJobs(ReclaimedJobs(db, batch, now), now), now)
  }

  /** The rest of a pass that deletes the chosen jobs. */
  function Retired(db: Tables, doomed: set<nat>): Tables {
    SweptBlobs(Removed(db, doomed))
  }

  /** A whole pass to which nobody comes in between. */
  function Maintained(db: Tables, batch: set<nat>, now: int): Tables {
    var aged := Aged(db, batch, now);
    Retired(aged, DeletableJobs(aged, now))
  }

  // ---- staged results ----

  /** What a finalizer that holds `token` loads: the artifacts of the source it leased the job with,
    while the job still links to it, and otherwise the uploaded files of the delivered last attempt. */
  ghost predicate IsStaged(db: Tables, id: nat, token: nat, leasedSource: Option<nat>, row: StagedArtifact) {
    && id in db.jobs && db.jobs[id].state.Finalizing? && db.jobs[id].token == Some(token)
    && row.blob in db.blobs && row.content == db.blobs[row.blob].content
    && match leasedSource
       case Some(source) =>
         && db.jobs[id].cacheSource == Some(source)
         && row.transfer.None? && source in db.jobs && db.jobs[source].state.Succeeded?
         && (source, row.role) in db.artifacts
         && db.artifacts[(source, row.role)] == Artifact(row.blob, row.mediaType, row.filename, row.size, row.digest)
       case None =>
         && row.transfer.Some? && row.transfer.value in db.transfers
         && var transfer := db.transfers[row.transfer.value];
         && transfer.job == id && transfer.attempt == db.jobs[id].attempts && (id, transfer.attempt) in db.delivered
         && transfer.upload && transfer.state.Uploaded? && transfer.blob == Some(row.blob)
         && transfer.role == row.role && transfer.mediaType == row.mediaType && transfer.filename == row.filename
         && transfer.size == row.size && transfer.digest == row.digest
  }

  /** A loaded result: every staged row, once. */
  ghost predicate Loaded(db: Tables, id: nat, token: nat, leasedSource: Option<nat>, staged: seq<StagedArtifact>) {
    && (forall row :: row in staged <==> IsStaged(db, id, token, leasedSource, row))
    && (forall i, j :: 0 <= i < j < |staged| ==> staged[i] != staged[j])
  }

  // ---- publication ----

  /** Inserts the staged rows in order; a role that is already there is left alone. */
  function Inserted(artifacts: map<(nat, string), Artifact>, id: nat, staged: seq<StagedArtifact>):
      map<(nat, string), Artifact>
    decreases |staged|
  {
    if staged == [] then artifacts
    else
      var row := staged[0];
      Inserted(if (id, row.role) in artifacts then artifacts
               else artifacts[(id, row.role) := Artifact(row.blob, row.mediaType, row.filename, row.size, row.digest)],
               id, staged[1..])
  }

  function ConsumedBy(transfers: map<nat, Transfer>, staged: seq<StagedArtifact>): map<nat, Transfer> {
    map t | t in transfers ::
      if exists row :: row in staged && row.transfer == Some(t) then transfers[t].(state := Consumed) else transfers[t]
  }

  /** The files of all staged rows are stored; an artifact row must refer to a file that is. */
  predicate FilesStored(db: Tables, staged: seq<StagedArtifact>) {
    forall row :: row in staged ==> row.blob in db.blobs
  }

  predicate MayPublish(db: Tables, id: nat, token: nat, staged: seq<StagedArtifact>, now: int) {
    id in db.jobs && HoldsLease(db.jobs[id], token, now) && FilesStored(db, staged)
  }

  /** Publication by the holder of an unexpired lease; anyone else changes nothing, and neither does
    a publication that fails because a file is gone. */
  function PublishedResult(db: Tables, id: nat, token: nat, staged: seq<StagedArtifact>, project: nat, now: int): Tables {
    if MayPublish(db, id, token, staged, now)
    then
      WithJob(db, id, Published(token, project), now).(
        artifacts := Inserted(db.artifacts, id, staged),
        transfers := ConsumedBy(db.transfers, staged),
        projects := if db.jobs[id].operation.PptxImportTypst? then db.projects + {project} else db.projects)
    else db
  }
}
