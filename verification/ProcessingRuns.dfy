/** Admission, workers, maintenance and several finalizers, one transaction at a time
  (backend/src/document_processing). What workers do is the environment: any of the claim,
  upload, delivery and failure transactions may happen whenever its own guard allows it. */
module ProcessingRuns {
  import opened Wrappers
  import opened ProcessingModel
  import opened ProcessingTables
  import opened ProcessingResults

  /** A finalizer between its transactions: the lease it took and what it found so far. */
  datatype Finalizer = Finalizer(
    job: nat, token: nat, leased: Job, staged: Option<seq<StagedArtifact>>, verdict: Option<Verdict>)

  datatype Note =
    | JobPublished(job: nat, token: nat, project: nat)
    | JobRequeued(job: nat)

  /** A maintenance pass between its statements: its own time, and the jobs its retention delete
    has picked from the tables as they were when that statement began. */
  datatype Pass = Pass(now: int, chosen: Option<set<nat>>)

  /** A claim that has read a cached result and has not yet committed the link to it. */
  datatype Hit = Hit(job: nat, source: nat, now: int)

  datatype System = System(
    db: Tables,
    now: int,
    finalizers: map<nat, Finalizer>,
    passes: map<nat, Pass>,
    hits: map<nat, Hit>,
    notes: seq<Note>)

  datatype Action =
    | Tick(seconds: nat)
    | Reserve(command: Command)
    | StoreInput(id: nat, digest: int, content: string, blob: nat)
    | FailPreparation(id: nat)
    | Cancel(id: nat, user: nat)
    | Claim(id: nat, lease: nat, ttl: nat)
    | FindHit(c: nat, id: nat, source: nat)
    | LinkHit(c: nat)
    | Beat(id: nat, lease: nat)
    | IssueUpload(id: nat, role: string, mediaType: string, filename: string, size: int, digest: int, ttl: nat)
    | Upload(transfer: nat, content: string, blob: nat)
    | Complete(id: nat)
    | EndAttempt(id: nat, retryable: bool)
    | Maintain(p: nat, batch: set<nat>)
    | ChooseExpired(p: nat)
    | DeleteExpired(p: nat)
    | Acquire(f: nat, id: nat, lease: nat)
    | Load(f: nat, staged: seq<StagedArtifact>)
    | Validate(f: nat, access: Access)
    | Finish(f: nat)
    | GiveUp(f: nat)

  /** The blob under which content is stored: the one already there, or a new row. */
  ghost predicate BlobFor(db: Tables, blob: nat, digest: int, content: string) {
    || StoredAs(db, blob, digest, content)
    || (blob == db.nextId && forall b :: !StoredAs(db, b, digest, content))
  }

  function WithBlob(db: Tables, blob: nat, digest: int, content: string): Tables {
    if blob in db.blobs then db
    else db.(blobs := db.blobs[blob := Blob(digest, content)], nextId := db.nextId + 1)
  }

  /** Another job's result that answers the same input, not yet due for retention. */
  ghost predicate Reusable(db: Tables, id: nat, source: nat, now: int)
    requires id in db.jobs
  {
    && source in db.jobs && source != id && db.jobs[source].state.Succeeded?
    && db.jobs[source].operation == db.jobs[id].operation && SameInput(db, db.jobs[source], db.jobs[id])
    && db.jobs[source].project == db.jobs[id].project
    && (db.jobs[id].project.None? ==>
          db.jobs[source].idempotency.requester == db.jobs[id].idempotency.requester)
    && db.jobs[source].retainedUntil > now
    && exists role :: (source, role) in db.artifacts
  }

  predicate SameInput(db: Tables, prior: Job, job: Job) {
    && prior.inputBlob.Some? && prior.inputBlob.value in db.blobs
    && job.inputBlob.Some? && job.inputBlob.value in db.blobs
    && db.blobs[prior.inputBlob.value].digest == db.blobs[job.inputBlob.value].digest
  }

  ghost predicate Enabled(config: Config, s: System, a: Action) {
    match a
    case Tick(seconds) => true
    case Reserve(command) => Named(s.db.jobs, command.idempotency) == {} && FullFor(config, s.db, command).None?
    case StoreInput(id, digest, content, blob) =>
      id in s.db.jobs && BlobFor(s.db, blob, digest, content)
      && s.db.jobs[id].state.Preparing? && !s.db.jobs[id].cancelRequested
    case FailPreparation(id) => id in s.db.jobs
    case Cancel(id, user) => id in s.db.jobs && s.db.jobs[id].idempotency.requester == user
    case Claim(id, lease, ttl) => id in s.db.jobs && Claimable(s.db.jobs[id], s.now)
    case FindHit(c, id, source) =>
      && c !in s.hits && id in s.db.jobs && Claimable(s.db.jobs[id], s.now) && Reusable(s.db, id, source, s.now)
    case LinkHit(c) =>
      && c in s.hits && var hit := s.hits[c];
      && hit.job in s.db.jobs && Claimable(s.db.jobs[hit.job], hit.now) && hit.source in s.db.jobs
    case Beat(id, lease) => id in s.db.jobs
    case IssueUpload(id, role, mediaType, filename, size, digest, ttl) =>
      && id in s.db.jobs && s.db.jobs[id].state.Running? && s.db.jobs[id].claimExpires > s.now
      && !s.db.jobs[id].cancelRequested
    case Upload(transfer, content, blob) =>
      && transfer in s.db.transfers && var t := s.db.transfers[transfer];
      && t.job in s.db.jobs && s.db.jobs[t.job].state.Running? && s.db.jobs[t.job].claimExpires > s.now
      && t.attempt == s.db.jobs[t.job].attempts
      && t.upload && t.state.Issued? && t.expires > s.now
      && t.size == |content| && t.digest == config.digestOf(content)
      && BlobFor(s.db, blob, t.digest, content)
    case Complete(id) =>
      && id in s.db.jobs && s.db.jobs[id].state.Running? && s.db.jobs[id].claimExpires > s.now
      && !s.db.jobs[id].cancelRequested
    case EndAttempt(id, retryable) => id in s.db.jobs
    case Maintain(p, batch) => p !in s.passes && forall id :: id in batch ==> ClaimExpired(s.db, id, s.now)
    case ChooseExpired(p) => p in s.passes && s.passes[p].chosen.None?
    case DeleteExpired(p) => p in s.passes && s.passes[p].chosen.Some?
    case Acquire(f, id, lease) =>
      && f !in s.finalizers && id in s.db.jobs && s.db.jobs[id].state.Finalizing?
      && (s.db.jobs[id].token.None? || s.db.jobs[id].tokenExpires <= s.now)
    case Load(f, staged) =>
      && f in s.finalizers && s.finalizers[f].staged.None?
      && Loaded(s.db, s.finalizers[f].job, s.finalizers[f].token, s.finalizers[f].leased.cacheSource, staged)
    case Validate(f, access) => f in s.finalizers && s.finalizers[f].staged.Some? && s.finalizers[f].verdict.None?
    case Finish(f) =>
      f in s.finalizers && s.finalizers[f].staged.Some? && s.finalizers[f].verdict.Some?
    case GiveUp(f) => f in s.finalizers
  }

  function OnJob(s: System, id: nat, e: JobEvent): System {
    s.(db := WithJob(s.db, id, e, s.now))
  }

  /** The jobs of a batch that a lost claim puts back into the queue. */
  function RequeuedIn(db: Tables, batch: set<nat>, now: int): set<nat> {
    set id | id in batch && id in db.jobs && db.jobs[id].state.Running? && Next(db.jobs[id], ClaimLost, now).state.Queued?
  }

  /** One note for each of `ids`, by number. */
  function RequeueNotes(ids: set<nat>, below: nat): seq<Note> {
    if below == 0 then []
    else RequeueNotes(ids, below - 1) + (if below - 1 in ids then [JobRequeued(below - 1)] else [])
  }

  function BatchNotes(db: Tables, batch: set<nat>, now: int): seq<Note> {
    RequeueNotes(RequeuedIn(db, batch, now), db.nextId)
  }

  function AddTransfer(db: Tables, transfer: Transfer): Tables {
    db.(transfers := db.transfers[db.nextId := transfer], nextId := db.nextId + 1)
  }

  /** A claim with its fresh number, and the transfer from which the worker reads the input. */
  function Claimed(db: Tables, id: nat, now: int, expires: int, until: int): Tables
    requires id in db.jobs
  {
    var claimed := WithJob(db.(nextId := db.nextId + 1), id, ClaimTaken(db.nextId, expires), now);
    AddTransfer(claimed, Transfer(id, claimed.jobs[id].attempts, false, "input", "", "", 0, 0,
                                  db.jobs[id].inputBlob, Issued, until))
  }

  ghost function Finished(s: System, f: nat): System
    requires f in s.finalizers && s.finalizers[f].staged.Some? && s.finalizers[f].verdict.Some?
  {
    var fin := s.finalizers[f];
    var rest := s.(finalizers := s.finalizers - {f});
    match fin.verdict.value
    case RetryLater => rest
    case Refuse(_) => OnJob(rest, fin.job, Rejected(fin.token))
    case Publish =>
      rest.(db := PublishedResult(s.db, fin.job, fin.token, fin.staged.value, s.db.nextId, s.now).(nextId := s.db.nextId + 1),
            notes := if MayPublish(s.db, fin.job, fin.token, fin.staged.value, s.now)
                     then s.notes + [JobPublished(fin.job, fin.token, s.db.nextId)] else s.notes)
  }

  ghost function Apply(config: Config, s: System, a: Action): System
    requires Enabled(config, s, a)
  {
    match a
    case Tick(seconds) => s.(now := s.now + seconds)
    case Reserve(command) => s.(db := AddJob(s.db, command, s.now))
    case StoreInput(id, digest, content, blob) =>
      OnJob(s.(db := WithBlob(s.db, blob, digest, content)), id, InputStored(blob))
    case FailPreparation(id) => OnJob(s, id, PreparationFailed)
    case Cancel(id, user) => OnJob(s, id, CancelAsked)
    case Claim(id, lease, ttl) =>
      s.(db := Claimed(s.db, id, s.now, s.now + lease, s.now + ttl))
    case FindHit(c, id, source) => s.(hits := s.hits[c := Hit(id, source, s.now)])
    case LinkHit(c) =>
      var hit := s.hits[c];
      s.(db := WithJob(s.db, hit.job, CacheFound(hit.source), hit.now), hits := s.hits - {c})
    case Beat(id, lease) => OnJob(s, id, Heartbeat(s.now + lease))
    case IssueUpload(id, role, mediaType, filename, size, digest, ttl) =>
      s.(db := AddTransfer(s.db, Transfer(id, s.db.jobs[id].attempts, true, role, mediaType, filename, size, digest,
                                          None, Issued, s.now + ttl)))
    case Upload(transfer, content, blob) =>
      var stored := WithBlob(s.db, blob, s.db.transfers[transfer].digest, content);
      s.(db := stored.(transfers :=
        stored.transfers[transfer := stored.transfers[transfer].(state := Uploaded, blob := Some(blob))]))
    case Complete(id) =>
      var done := OnJob(s, id, Delivered);
      done.(db := done.db.(delivered := done.db.delivered + {(id, s.db.jobs[id].attempts)}))
    case EndAttempt(id, retryable) => OnJob(s, id, AttemptEnded(retryable))
    case Maintain(p, batch) =>
      s.(db := Aged(s.db, batch, s.now), passes := s.passes[p := Pass(s.now, None)],
         notes := s.notes + BatchNotes(s.db, batch, s.now))
    case ChooseExpired(p) =>
      var pass := s.passes[p];
      s.(passes := s.passes[p := pass.(chosen := Some(DeletableJobs(s.db, pass.now)))])
    case DeleteExpired(p) =>
      s.(db := Retired(s.db, s.passes[p].chosen.value), passes := s.passes - {p})
    case Acquire(f, id, lease) =>
      var token := s.db.nextId;
      var held := OnJob(s.(db := s.db.(nextId := token + 1)), id, LeaseTaken(token, s.now + lease));
      held.(finalizers := s.finalizers[f := Finalizer(id, token, s.db.jobs[id], None, None)])
    case Load(f, staged) => s.(finalizers := s.finalizers[f := s.finalizers[f].(staged := Some(staged))])
    case Validate(f, access) =>
      var fin := s.finalizers[f];
      s.(finalizers := s.finalizers[f := fin.(verdict := Some(Judged(config, fin.leased, fin.staged.value, access)))])
    case Finish(f) => Finished(s, f)
    case GiveUp(f) => s.(finalizers := s.finalizers - {f})
  }

  predicate Initial(s: System) {
    && s.db == Tables(map[], {}, map[], map[], map[], s.db.projects, s.db.nextId)
    && (forall p :: p in s.db.projects ==> p < s.db.nextId)
    && s.finalizers == map[] && s.passes == map[] && s.hits == map[] && s.notes == []
  }

  ghost predicate Run(config: Config, start: System, actions: seq<Action>, end: System)
    decreases |actions|
  {
    if actions == [] then end == start
    else Enabled(config, start, actions[0]) && Run(config, Apply(config, start, actions[0]), actions[1..], end)
  }
}
