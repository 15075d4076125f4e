/** Values of document processing: operations and their artifact contracts, job states, the
  retry delay, and the life of a single job
  (backend/src/document_processing/model.rs and operation_contract.rs). */
module ProcessingModel {
  import opened Wrappers

  datatype Operation = LatexCompilePdf | TypstExportPptx | PptxImportTypst

  datatype SizeClass = Output | Diagnostic

  datatype ArtifactContract = ArtifactContract(
    role: string, mediaType: string, suffix: string, size: SizeClass, required: bool)

  const PPTX_MEDIA_TYPE := "application/vnd.openxmlformats-officedocument.presentationml.presentation"
  const WORKSPACE_BUNDLE_MEDIA_TYPE := "application/vnd.toss.workspace-bundle+zip"

  function Contract(operation: Operation): seq<ArtifactContract> {
    match operation
    case LatexCompilePdf => [
      ArtifactContract("pdf", "application/pdf", ".pdf", Output, true),
      ArtifactContract("log", "text/plain", ".log", Diagnostic, false)]
    case TypstExportPptx => [
      ArtifactContract("pptx", PPTX_MEDIA_TYPE, ".pptx", Output, true),
      ArtifactContract("report", "application/json", ".json", Diagnostic, true)]
    case PptxImportTypst => [
      ArtifactContract("workspace", WORKSPACE_BUNDLE_MEDIA_TYPE, ".zip", Output, true),
      ArtifactContract("report", "application/json", ".json", Diagnostic, true)]
  }

  /** The first entry of the contract for a role. */
  function Lookup(contract: seq<ArtifactContract>, role: string): (found: Option<ArtifactContract>)
    ensures found.Some? <==> exists c :: c in contract && c.role == role
    ensures found.Some? ==> found.value in contract && found.value.role == role
  {
    if contract == [] then None
    else if contract[0].role == role then Some(contract[0])
    else Lookup(contract[1..], role)
  }

  /** No operation lists a role twice, so an entry is found by its role. */
  lemma ContractRolesDistinct(operation: Operation, c: ArtifactContract)
    requires c in Contract(operation)
    ensures Lookup(Contract(operation), c.role) == Some(c)
  {
    var contract := Contract(operation);
    assert contract == [contract[0], contract[1]];
    assert contract[1..] == [contract[1]];
    assert contract[0].role[0] != contract[1].role[0];
  }

  // ---- jobs ----

  datatype JobState = Preparing | Queued | Running | Finalizing | Succeeded | Failed | Cancelled | Expired

  predicate Terminal(state: JobState) {
    state.Succeeded? || state.Failed? || state.Cancelled? || state.Expired?
  }

  predicate Active(state: JobState) {
    state.Preparing? || state.Queued? || state.Running? || state.Finalizing?
  }

  datatype Idempotency = Idempotency(requester: nat, scope: string, key: string)

  datatype Job = Job(
    operation: Operation,
    project: Option<nat>,
    idempotency: Idempotency,
    digest: int,
    namesProject: bool,
    maxAttempts: nat,
    queueExpires: int,
    retainedUntil: int,
    state: JobState,
    cancelRequested: bool,
    attempts: nat,
    claim: Option<nat>,
    claimExpires: int,
    nextAttempt: int,
    inputBlob: Option<nat>,
    cacheSource: Option<nat>,
    token: Option<nat>,
    tokenExpires: int,
    updatedAt: int,
    completedAt: Option<int>,
    resultProject: Option<nat>)

  const MAX_ATTEMPTS: nat := 3

  function PowerOfTwo(shift: nat): nat {
    if shift == 0 then 1 else 2 * PowerOfTwo(shift - 1)
  }

  /** Seconds before a requeued job may be claimed again: one shifted left, at most five times, capped. */
  function RetryDelay(attempts: int): (seconds: int)
    ensures 1 <= seconds <= 30
  {
    var shift := if attempts - 1 < 0 then 0 else if attempts - 1 > 5 then 5 else attempts - 1;
    PowerIsPositive(shift);
    if PowerOfTwo(shift) < 30 then PowerOfTwo(shift) else 30
  }

  lemma PowerIsPositive(shift: nat)
    ensures PowerOfTwo(shift) >= 1
  {
  }

  /** The delay doubles with every attempt until it reaches half a minute, and never shrinks. */
  lemma RetryDelayDoubles(attempts: int)
    ensures attempts <= 1 ==> RetryDelay(attempts) == 1
    ensures 1 <= attempts < 5 ==> RetryDelay(attempts + 1) == 2 * RetryDelay(attempts)
    ensures attempts >= 6 <==> RetryDelay(attempts) == 30
    ensures RetryDelay(attempts) <= RetryDelay(attempts + 1)
  {
    assert PowerOfTwo(1) == 2 && PowerOfTwo(2) == 4 && PowerOfTwo(3) == 8;
    assert PowerOfTwo(4) == 16 && PowerOfTwo(5) == 32;
  }

  /** What can happen to one job; every statement carries its own guard on the job's state. */
  datatype JobEvent =
    | InputStored(blob: nat)
    | PreparationFailed
    | CancelAsked
    | ClaimTaken(claim: nat, expires: int)
    | CacheFound(source: nat)
    | Heartbeat(expires: int)
    | ClaimLost
    | QueueTimedOut
    | Delivered
    | AttemptEnded(retryable: bool)
    | LeaseTaken(token: nat, expires: int)
    | Published(token: nat, project: nat)
    | Rejected(token: nat)

  function Closed(job: Job, state: JobState, now: int): Job {
    job.(state := state, claim := None, token := None, updatedAt := now, completedAt := Some(now))
  }

  function Requeued(job: Job, now: int): Job {
    job.(state := Queued, claim := None, nextAttempt := now + RetryDelay(job.attempts), updatedAt := now)
  }

  /** Holds a finalization lease that has not expired. */
  predicate HoldsLease(job: Job, token: nat, now: int) {
    job.state.Finalizing? && job.token == Some(token) && job.tokenExpires > now
  }

  function Next(job: Job, e: JobEvent, now: int): Job {
    match e
    case InputStored(blob) =>
      if job.state.Preparing? && !job.cancelRequested
      then job.(state := Queued, inputBlob := Some(blob), updatedAt := now) else job
    case PreparationFailed =>
      if job.state.Preparing? then Closed(job, Failed, now) else job
    case CancelAsked =>
      if job.state.Preparing? || job.state.Queued? then Closed(job, Cancelled, now).(cancelRequested := true)
      else if job.state.Running? then job.(cancelRequested := true, updatedAt := now)
      else job
    case ClaimTaken(claim, expires) =>
      if Claimable(job, now)
      then job.(state := Running, attempts := job.attempts + 1, claim := Some(claim), claimExpires := expires,
                updatedAt := now)
      else job
    case CacheFound(source) =>
      if Claimable(job, now) then job.(state := Finalizing, cacheSource := Some(source), updatedAt := now) else job
    case Heartbeat(expires) =>
      if job.state.Running? && job.claimExpires > now then job.(claimExpires := expires, updatedAt := now) else job
    case ClaimLost =>
      if !(job.state.Running? && job.claimExpires <= now) then job
      else if job.cancelRequested then Closed(job, Cancelled, now)
      else if job.attempts < job.maxAttempts && job.queueExpires > now then Requeued(job, now)
      else if job.queueExpires <= now then Closed(job, Expired, now)
      else Closed(job, Failed, now)
    case QueueTimedOut =>
      if (job.state.Preparing? || job.state.Queued?) && job.queueExpires <= now then Closed(job, Expired, now) else job
    case Delivered =>
      if job.state.Running? && !job.cancelRequested && job.claimExpires > now
      then job.(state := Finalizing, claim := None, token := None, updatedAt := now)
      else job
    case AttemptEnded(retryable) =>
      if !(job.state.Running? && job.claimExpires > now) then job
      else if job.cancelRequested then Closed(job, Cancelled, now)
      else if retryable && job.attempts < job.maxAttempts then Requeued(job, now)
      else Closed(job, Failed, now)
    case LeaseTaken(token, expires) =>
      if job.state.Finalizing? && (job.token.None? || job.tokenExpires <= now)
      then job.(token := Some(token), tokenExpires := expires, updatedAt := now)
      else job
    case Published(token, project) =>
      if HoldsLease(job, token, now)
      then Closed(job, Succeeded, now).(resultProject := if job.operation.PptxImportTypst? then Some(project) else None)
      else job
    case Rejected(token) =>
      if HoldsLease(job, token, now) then Closed(job, Failed, now) else job
  }

  predicate Claimable(job: Job, now: int) {
    job.state.Queued? && !job.cancelRequested && job.queueExpires > now && job.nextAttempt <= now
  }

  /** What holds of a job at every moment of its life. */
  predicate JobFits(job: Job) {
    && (job.completedAt.Some? <==> Terminal(job.state))
    && (job.token.Some? ==> job.state.Finalizing?)
    && (job.claim.Some? <==> job.state.Running?)
    && (job.cancelRequested ==> job.state.Running? || job.state.Cancelled?)
    && job.maxAttempts == MAX_ATTEMPTS && job.attempts <= job.maxAttempts
    && (job.state.Preparing? ==> job.attempts == 0 && job.inputBlob.None? && job.cacheSource.None?)
    && (job.state.Queued? ==> job.attempts < job.maxAttempts && job.inputBlob.Some? && job.cacheSource.None?)
    && (job.state.Running? ==> job.attempts > 0 && job.inputBlob.Some? && job.cacheSource.None?)
    && (job.resultProject.Some? ==> job.state.Succeeded? && job.operation.PptxImportTypst?)
  }

  /** The job's link to a cached result is the one it had, or was cleared. */
  predicate LinkKept(job: Job, job': Job) {
    job'.cacheSource == job.cacheSource || job'.cacheSource.None?
  }

  /** A job keeps who asked for what; one that is finalizing goes on to its end, and one that has
    ended keeps everything, but a link to a cached result may be cleared. */
  predicate Continues(job: Job, job': Job) {
    && job'.operation == job.operation && job'.project == job.project && job'.idempotency == job.idempotency
    && job'.digest == job.digest && job'.namesProject == job.namesProject
    && job'.queueExpires == job.queueExpires && job'.retainedUntil == job.retainedUntil
    && job.attempts <= job'.attempts
    && (Terminal(job.state) ==> job' == job.(cacheSource := job'.cacheSource))
    && (job.cancelRequested ==> job'.cancelRequested)
    && (job.inputBlob.Some? ==> job'.inputBlob == job.inputBlob)
    && (job.state.Finalizing? || Terminal(job.state) ==>
          LinkKept(job, job') && (job'.state.Finalizing? || Terminal(job'.state)))
  }

  /** A finalization lease in force is the one taken, on a job that has been finalizing since. */
  predicate LeaseContinues(job: Job, job': Job) {
    job'.token.Some? ==> job'.token == job.token && job.state.Finalizing? && LinkKept(job, job')
  }

  /** The life cycle: what holds of a job is kept, terminal states are absorbing, and a job that
    was asked to cancel never goes back to the queue, on to finalization or to success. */
  lemma LifeCycle(job: Job, e: JobEvent, now: int)
    requires JobFits(job)
    ensures var job' := Next(job, e, now);
            && JobFits(job') && Continues(job, job')
            && (Terminal(job.state) ==> job' == job)
            && (job.cacheSource.Some? || job.state.Finalizing? ==> job'.cacheSource == job.cacheSource)
            && (LeaseContinues(job, job') || e.LeaseTaken?)
            && (Active(job'.state) ==> Active(job.state))
            && (job.cancelRequested ==> job'.state == job.state || job'.state.Cancelled?)
            && (job'.state.Succeeded? && !job.state.Succeeded? ==>
                  e.Published? && job.state.Finalizing? && job.token == Some(e.token))
            && (job' == job || job'.updatedAt == now)
            && (job'.attempts > job.attempts ==> e.ClaimTaken? && job'.attempts == job.attempts + 1)
            && (job'.state.Queued? && !job.state.Queued? ==>
                  job.state.Preparing?
                  || (job.state.Running? && job.attempts < MAX_ATTEMPTS && !job.cancelRequested
                      && now + 1 <= job'.nextAttempt <= now + 30))
  {
    EventKeepsFit(job, e, now);
    EventContinues(job, e, now);
  }

  lemma EventKeepsFit(job: Job, e: JobEvent, now: int)
    requires JobFits(job)
    ensures JobFits(Next(job, e, now))
  {
  }

  lemma EventContinues(job: Job, e: JobEvent, now: int)
    requires JobFits(job)
    ensures Continues(job, Next(job, e, now))
  {
  }
}
