/** What every transaction of document processing keeps about the tables. */
module ProcessingInvariant {
  import opened Wrappers
  import opened ProcessingModel
  import opened ProcessingTables
  import opened ProcessingResults

  /** The rows a job refers to are there; a cache source has succeeded and has artifacts. */
  ghost predicate LinksFit(db: Tables, id: nat, job: Job) {
    && (job.inputBlob.Some? ==> job.inputBlob.value in db.blobs)
    && (job.cacheSource.Some? ==> SourceFits(db, id, job, job.cacheSource.value))
  }

  ghost predicate SourceFits(db: Tables, id: nat, job: Job, source: nat) {
    && source in db.jobs && source != id && db.jobs[source].state.Succeeded?
    && db.jobs[source].operation == job.operation
    && exists role :: (source, role) in db.artifacts
  }

  ghost predicate JobsFit(db: Tables) {
    && (forall id :: id in db.jobs ==> id < db.nextId && JobFits(db.jobs[id]))
    && (forall id {:trigger LinksFit(db, id, db.jobs[id])} :: id in db.jobs ==> LinksFit(db, id, db.jobs[id]))
    && (forall i, j :: i in db.jobs && j in db.jobs && i != j ==> db.jobs[i].idempotency != db.jobs[j].idempotency)
  }

  predicate TransferFits(db: Tables, transfer: Transfer) {
    && transfer.job in db.jobs
    && (transfer.blob.Some? ==> transfer.blob.value in db.blobs)
    && (transfer.upload && transfer.state.Issued? ==> transfer.blob.None?)
  }

  /** The last attempt of a job is delivered only while it is finalized, or later, and no cache hit has one. */
  predicate DeliveriesFit(db: Tables) {
    forall a :: a in db.delivered && a.0 in db.jobs ==>
      var job := db.jobs[a.0];
      && a.1 <= job.attempts
      && (a.1 == job.attempts ==> (job.state.Finalizing? || Terminal(job.state)) && job.cacheSource.None?)
  }

  ghost predicate RowsFit(db: Tables) {
    && DeliveriesFit(db) && (forall a :: a in db.delivered ==> a.0 < db.nextId)
    && (forall t :: t in db.transfers ==> t < db.nextId && TransferFits(db, db.transfers[t]))
    && (forall key :: key in db.artifacts ==>
          key.0 in db.jobs && db.jobs[key.0].state.Succeeded? && db.artifacts[key].blob in db.blobs)
    && (forall b :: b in db.blobs ==> b < db.nextId)
  }

  ghost predicate ResultsFit(config: Config, db: Tables) {
    forall id {:trigger MeetsContract(config, db, id, db.jobs[id].operation)} ::
      id in db.jobs && db.jobs[id].state.Succeeded? ==> MeetsContract(config, db, id, db.jobs[id].operation)
  }

  ghost predicate TablesFit(config: Config, db: Tables) {
    JobsFit(db) && RowsFit(db) && ResultsFit(config, db)
  }

  /** A result stays in contract as long as its own rows and their files are unchanged. */
  lemma ContractKept(config: Config, db: Tables, db': Tables, id: nat, operation: Operation)
    requires MeetsContract(config, db, id, operation)
    requires forall role :: (id, role) in db'.artifacts <==> (id, role) in db.artifacts
    requires forall role :: (id, role) in db.artifacts ==> db'.artifacts[(id, role)] == db.artifacts[(id, role)]
    requires forall role :: (id, role) in db.artifacts ==>
      var b := db.artifacts[(id, role)].blob; b in db.blobs ==> b in db'.blobs && db'.blobs[b] == db.blobs[b]
    ensures MeetsContract(config, db', id, operation)
  {
    forall role | (id, role) in db'.artifacts
      ensures ArtifactOk(config, operation, db'.blobs, role, db'.artifacts[(id, role)])
    {
      assert ArtifactOk(config, operation, db.blobs, role, db.artifacts[(id, role)]);
    }
  }

  // ---- jobs move on ----

  /** Every job moves along its life cycle, and none succeeds. */
  ghost predicate Advances(db: Tables, jobs': map<nat, Job>) {
    && jobs'.Keys == db.jobs.Keys
    && (forall id :: id in db.jobs ==> MovesOn(db.jobs[id], jobs'[id]))
    && (forall id {:trigger LinksFit(db, id, jobs'[id])} :: id in db.jobs ==> LinksFit(db, id, jobs'[id]))
  }

  lemma AdvanceFits(config: Config, db: Tables, jobs': map<nat, Job>)
    requires TablesFit(config, db) && Advances(db, jobs')
    ensures TablesFit(config, db.(jobs := jobs'))
  {
    var db' := db.(jobs := jobs');
    forall id | id in db'.jobs
      ensures LinksFit(db', id, db'.jobs[id])
    {
      assert LinksFit(db, id, jobs'[id]);
    }
    forall id | id in db'.jobs && db'.jobs[id].state.Succeeded?
      ensures MeetsContract(config, db', id, db'.jobs[id].operation)
    {
      assert MeetsContract(config, db, id, db.jobs[id].operation);
    }
  }

  lemma EventMovesOn(job: Job, e: JobEvent, now: int)
    requires JobFits(job) && !e.Published?
    ensures MovesOn(job, Next(job, e, now))
  {
    LifeCycle(job, e, now);
  }

  lemma EventLinks(db: Tables, id: nat, job: Job, e: JobEvent, now: int)
    requires LinksFit(db, id, job)
    requires e.InputStored? ==> e.blob in db.blobs
    requires e.CacheFound? ==> SourceFits(db, id, job, e.source)
    ensures LinksFit(db, id, Next(job, e, now))
  {
  }

  /** One job takes an event other than publication. */
  lemma EventAdvances(config: Config, db: Tables, id: nat, e: JobEvent, now: int)
    requires TablesFit(config, db) && !e.Published?
    requires e.InputStored? ==> e.blob in db.blobs
    requires e.CacheFound? && id in db.jobs ==> SourceFits(db, id, db.jobs[id], e.source)
    ensures TablesFit(config, WithJob(db, id, e, now))
    ensures Advances(db, WithJob(db, id, e, now).jobs)
  {
    var db' := WithJob(db, id, e, now);
    forall i | i in db.jobs
      ensures LinksFit(db, i, db'.jobs[i]) && MovesOn(db.jobs[i], db'.jobs[i])
    {
      assert LinksFit(db, i, db.jobs[i]);
      if i == id {
        EventLinks(db, id, db.jobs[id], e, now);
        EventMovesOn(db.jobs[id], e, now);
      }
    }
    AdvanceFits(config, db, db'.jobs);
  }

  // ---- new rows ----

  lemma BlobAdded(config: Config, db: Tables, digest: int, content: string)
    requires TablesFit(config, db)
    ensures TablesFit(config, db.(blobs := db.blobs[db.nextId := Blob(digest, content)], nextId := db.nextId + 1))
  {
    var db' := db.(blobs := db.blobs[db.nextId := Blob(digest, content)], nextId := db.nextId + 1);
    SameRowsFit(config, db, db');
  }

  /** Nothing but new blobs and identifiers. */
  lemma SameRowsFit(config: Config, db: Tables, db': Tables)
    requires TablesFit(config, db) && db'.jobs == db.jobs && db'.artifacts == db.artifacts
    requires db.nextId <= db'.nextId
    requires db'.delivered == db.delivered || (DeliveriesFit(db') && forall a :: a in db'.delivered ==> a.0 < db'.nextId)
    requires forall b :: b in db'.blobs ==> b < db'.nextId
    requires forall b :: b in db.blobs ==> b in db'.blobs && db'.blobs[b] == db.blobs[b]
    requires forall t :: t in db'.transfers ==> t < db'.nextId && TransferFits(db', db'.transfers[t])
    ensures TablesFit(config, db')
  {
    forall id | id in db'.jobs
      ensures LinksFit(db', id, db'.jobs[id])
    {
      assert LinksFit(db, id, db.jobs[id]);
    }
    forall id | id in db'.jobs && db'.jobs[id].state.Succeeded?
      ensures MeetsContract(config, db', id, db'.jobs[id].operation)
    {
      assert MeetsContract(config, db, id, db.jobs[id].operation);
    }
  }

  lemma JobAddedLinks(db: Tables, command: Command, now: int)
    requires JobsFit(db) && Named(db.jobs, command.idempotency) == {}
    ensures JobsFit(AddJob(db, command, now))
  {
    var db' := AddJob(db, command, now);
    assert db.nextId !in db.jobs;
    forall id | id in db.jobs
      ensures db.jobs[id].idempotency != command.idempotency
    {
      assert id !in Named(db.jobs, command.idempotency);
    }
    forall id | id in db'.jobs
      ensures LinksFit(db', id, db'.jobs[id])
    {
      if id in db.jobs {
        assert LinksFit(db, id, db.jobs[id]);
      }
    }
  }

  lemma JobAddedRows(db: Tables, command: Command, now: int)
    requires JobsFit(db) && RowsFit(db)
    ensures RowsFit(AddJob(db, command, now))
  {
    var db' := AddJob(db, command, now);
    assert db.nextId !in db.jobs;
    forall t | t in db'.transfers
      ensures t < db'.nextId && TransferFits(db', db'.transfers[t])
    {
      assert TransferFits(db, db.transfers[t]);
    }
  }

  lemma JobAdded(config: Config, db: Tables, command: Command, now: int)
    requires TablesFit(config, db) && Named(db.jobs, command.idempotency) == {}
    ensures TablesFit(config, AddJob(db, command, now))
  {
    var db' := AddJob(db, command, now);
    JobAddedLinks(db, command, now);
    JobAddedRows(db, command, now);
    assert db.nextId !in db.jobs;
    forall id | id in db'.jobs && db'.jobs[id].state.Succeeded?
      ensures MeetsContract(config, db', id, db'.jobs[id].operation)
    {
      assert MeetsContract(config, db, id, db.jobs[id].operation);
      ContractKept(config, db, db', id, db.jobs[id].operation);
    }
  }

  // ---- maintenance ----

  /** One job moves on, or stays, and does not succeed. */
  predicate MovesOn(job: Job, job': Job) {
    && JobFits(job') && Continues(job, job')
    && (Active(job'.state) ==> Active(job.state))
    && (job'.state.Succeeded? ==> job.state.Succeeded?)
    && (job.state.Finalizing? || Terminal(job.state) ==>
          && (job'.state.Finalizing? || Terminal(job'.state))
          && job'.attempts == job.attempts && job'.cacheSource == job.cacheSource)
  }

  lemma AgingMovesOn(job: Job, now: int)
    requires JobFits(job)
    ensures MovesOn(job, job)
    ensures MovesOn(job, Next(job, ClaimLost, now)) && Next(job, ClaimLost, now).inputBlob == job.inputBlob
    ensures Next(job, ClaimLost, now).cacheSource == job.cacheSource
    ensures MovesOn(job, Next(job, QueueTimedOut, now)) && Next(job, QueueTimedOut, now).inputBlob == job.inputBlob
    ensures Next(job, QueueTimedOut, now).cacheSource == job.cacheSource
  {
  }

  lemma SameLinks(db: Tables, id: nat, job: Job, job': Job)
    requires LinksFit(db, id, job) && job'.inputBlob == job.inputBlob && job'.cacheSource == job.cacheSource
    requires job'.operation == job.operation
    ensures LinksFit(db, id, job')
  {
  }

  lemma ReclaimAdvances(db: Tables, batch: set<nat>, now: int)
    requires JobsFit(db)
    ensures Advances(db, ReclaimedJobs(db, batch, now).jobs)
  {
    var jobs' := ReclaimedJobs(db, batch, now).jobs;
    forall id | id in db.jobs
      ensures LinksFit(db, id, jobs'[id])
    {
      assert LinksFit(db, id, db.jobs[id]);
      AgingMovesOn(db.jobs[id], now);
      SameLinks(db, id, db.jobs[id], jobs'[id]);
    }
    forall id | id in db.jobs
      ensures MovesOn(db.jobs[id], jobs'[id])
    {
      AgingMovesOn(db.jobs[id], now);
    }
  }

  lemma ReclaimFits(config: Config, db: Tables, batch: set<nat>, now: int)
    requires TablesFit(config, db)
    ensures TablesFit(config, ReclaimedJobs(db, batch, now)) && Advances(db, ReclaimedJobs(db, batch, now).jobs)
  {
    var db' := ReclaimedJobs(db, batch, now);
    ReclaimAdvances(db, batch, now);
    AdvanceFits(config, db, db'.jobs);
    TransfersExpire(config, db.(jobs := db'.jobs), db'.transfers);
  }

  /** Some transfers expire and nothing else happens. */
  lemma TransfersExpire(config: Config, db: Tables, transfers': map<nat, Transfer>)
    requires TablesFit(config, db) && transfers'.Keys == db.transfers.Keys
    requires forall t :: t in db.transfers ==>
      transfers'[t] == db.transfers[t] || transfers'[t] == ExpiredTransfer(db.transfers[t])
    ensures TablesFit(config, db.(transfers := transfers'))
  {
    var db' := db.(transfers := transfers');
    forall t | t in transfers'
      ensures t < db'.nextId && TransferFits(db', transfers'[t])
    {
      assert TransferFits(db, db.transfers[t]);
    }
    SameRowsFit(config, db, db');
  }

  lemma TimeoutFits(config: Config, db: Tables, now: int)
    requires TablesFit(config, db)
    ensures TablesFit(config, TimedOutJobs(db, now)) && Advances(db, TimedOutJobs(db, now).jobs)
  {
    var jobs' := TimedOutJobs(db, now).jobs;
    forall id | id in db.jobs
      ensures LinksFit(db, id, jobs'[id])
    {
      assert LinksFit(db, id, db.jobs[id]);
      AgingMovesOn(db.jobs[id], now);
      SameLinks(db, id, db.jobs[id], jobs'[id]);
    }
    forall id | id in db.jobs
      ensures MovesOn(db.jobs[id], jobs'[id])
    {
      AgingMovesOn(db.jobs[id], now);
    }
    AdvanceFits(config, db, jobs');
  }

  lemma TransferTimeoutFits(config: Config, db: Tables, now: int)
    requires TablesFit(config, db)
    ensures TablesFit(config, TimedOutTransfers(db, now))
  {
    TransfersExpire(config, db, TimedOutTransfers(db, now).transfers);
  }

  /** What a removal leaves: the other jobs and their rows, with the links to removed ones cleared. */
  lemma RemovedRows(db: Tables, db': Tables, doomed: set<nat>)
    requires db' == Removed(db, doomed)
    ensures forall id :: id in db'.jobs <==> id in db.jobs && id !in doomed
    ensures forall id :: id in db'.jobs ==> db'.jobs[id] == Unlinked(db.jobs[id], doomed)
    ensures forall key :: key in db'.artifacts <==> key in db.artifacts && key.0 !in doomed
    ensures forall key :: key in db'.artifacts ==> db'.artifacts[key] == db.artifacts[key]
    ensures forall t :: t in db'.transfers <==> t in db.transfers && db.transfers[t].job !in doomed
    ensures forall t :: t in db'.transfers ==> db'.transfers[t] == db.transfers[t]
    ensures db'.blobs == db.blobs && db'.nextId == db.nextId && db'.delivered <= db.delivered
  {
  }

  lemma LinksSurvive(db: Tables, db': Tables, doomed: set<nat>, id: nat)
    requires db' == Removed(db, doomed) && id in db.jobs && id !in doomed && LinksFit(db, id, db.jobs[id])
    ensures LinksFit(db', id, db'.jobs[id])
  {
    if db'.jobs[id].cacheSource.Some? {
      var source := db.jobs[id].cacheSource.value;
      var role :| (source, role) in db.artifacts;
      assert (source, role) in db'.artifacts;
    }
  }

  lemma RemainingJobs(db: Tables, db': Tables, doomed: set<nat>)
    requires JobsFit(db) && db' == Removed(db, doomed)
    ensures JobsFit(db')
  {
    RemovedRows(db, db', doomed);
    forall id | id in db'.jobs
      ensures LinksFit(db', id, db'.jobs[id]) && JobFits(db'.jobs[id])
    {
      assert LinksFit(db, id, db.jobs[id]);
      LinksSurvive(db, db', doomed, id);
    }
  }

  /** Deleting any jobs keeps the tables in order: a job that stays keeps its source, with
    artifacts, unless the source is among the deleted, and then the link is cleared. */
  lemma RemovalFits(config: Config, db: Tables, doomed: set<nat>, db': Tables, id: nat)
    requires TablesFit(config, db) && db' == Removed(db, doomed)
    ensures TablesFit(config, db')
    ensures id in db'.jobs <==> id in db.jobs && id !in doomed
    ensures id in db'.jobs && db.jobs[id].cacheSource.Some? ==>
      var source := db.jobs[id].cacheSource.value;
      if source in doomed then db'.jobs[id] == db.jobs[id].(cacheSource := None)
      else db'.jobs[id] == db.jobs[id] && SourceFits(db', id, db'.jobs[id], source)
  {
    RemainingJobs(db, db', doomed);
    RemainingRows(db, db', doomed);
    RemainingResults(config, db, db', doomed);
    if id in db'.jobs {
      assert LinksFit(db', id, db'.jobs[id]);
    }
  }

  lemma RemainingRows(db: Tables, db': Tables, doomed: set<nat>)
    requires RowsFit(db) && db' == Removed(db, doomed)
    ensures RowsFit(db')
  {
    RemovedRows(db, db', doomed);
    forall t | t in db'.transfers
      ensures t < db'.nextId && TransferFits(db', db'.transfers[t])
    {
      assert TransferFits(db, db.transfers[t]);
    }
  }

  /** The results of jobs that stay are as good as before. */
  lemma RemainingResults(config: Config, db: Tables, db': Tables, doomed: set<nat>)
    requires ResultsFit(config, db) && db' == Removed(db, doomed)
    ensures ResultsFit(config, db')
  {
    RemovedRows(db, db', doomed);
    forall id | id in db'.jobs && db'.jobs[id].state.Succeeded?
      ensures MeetsContract(config, db', id, db'.jobs[id].operation)
    {
      assert MeetsContract(config, db, id, db.jobs[id].operation);
      ContractKept(config, db, db', id, db'.jobs[id].operation);
    }
  }

  /** A job that another one links to is not deletable: what a pass chooses has no dependent then. */
  lemma ChosenHasNoDependent(db: Tables, now: int, id: nat)
    requires id in db.jobs && db.jobs[id].cacheSource.Some?
    ensures db.jobs[id].cacheSource.value !in DeletableJobs(db, now)
  {
  }

  /** Blob collection keeps every blob that any row refers to. */
  lemma SweepFits(config: Config, db: Tables)
    requires TablesFit(config, db)
    ensures TablesFit(config, SweptBlobs(db))
    ensures forall b :: b in db.blobs && Referenced(db, b) ==> b in SweptBlobs(db).blobs
  {
    var db' := SweptBlobs(db);
    forall id | id in db'.jobs
      ensures LinksFit(db', id, db'.jobs[id])
    {
      assert LinksFit(db, id, db.jobs[id]);
    }
    forall id | id in db'.jobs && db'.jobs[id].state.Succeeded?
      ensures MeetsContract(config, db', id, db'.jobs[id].operation)
    {
      assert MeetsContract(config, db, id, db.jobs[id].operation);
      forall role | (id, role) in db'.artifacts
        ensures ArtifactOk(config, db.jobs[id].operation, db'.blobs, role, db'.artifacts[(id, role)])
      {
        assert ArtifactOk(config, db.jobs[id].operation, db.blobs, role, db.artifacts[(id, role)]);
        assert Referenced(db, db.artifacts[(id, role)].blob);
      }
    }
    forall t | t in db'.transfers
      ensures TransferFits(db', db'.transfers[t])
    {
      assert TransferFits(db, db.transfers[t]);
      if db.transfers[t].blob.Some? {
        assert Referenced(db, db.transfers[t].blob.value);
      }
    }
    forall key | key in db'.artifacts
      ensures db'.artifacts[key].blob in db'.blobs
    {
      assert Referenced(db, db.artifacts[key].blob);
    }
  }

  lemma AgedFits(config: Config, db: Tables, batch: set<nat>, now: int)
    requires TablesFit(config, db)
    ensures TablesFit(config, Aged(db, batch, now))
  {
    ReclaimFits(config, db, batch, now);
    TimeoutFits(config, ReclaimedJobs(db, batch, now), now);
    TransferTimeoutFits(config, TimedOutJobs(ReclaimedJobs(db, batch, now), now), now);
  }

  lemma RetirementFits(config: Config, db: Tables, doomed: set<nat>)
    requires TablesFit(config, db)
    ensures TablesFit(config, Retired(db, doomed))
  {
    RemainingJobs(db, Removed(db, doomed), doomed);
    RemainingRows(db, Removed(db, doomed), doomed);
    RemainingResults(config, db, Removed(db, doomed), doomed);
    SweepFits(config, Removed(db, doomed));
  }

  // ---- publication ----

  lemma PublicationFits(config: Config, db: Tables, id: nat, token: nat, staged: seq<StagedArtifact>, project: nat, now: int)
    requires TablesFit(config, db)
    requires MayPublish(db, id, token, staged, now) ==>
      SetOk(config, db.jobs[id].operation, staged)
      && forall row :: row in staged ==> db.blobs[row.blob].content == row.content
    ensures TablesFit(config, PublishedResult(db, id, token, staged, project, now))
  {
    if MayPublish(db, id, token, staged, now) {
      assert forall role :: (id, role) !in db.artifacts;
      InsertedRows(db.artifacts, id, staged);
      PublishedLinks(db, id, token, staged, project, now);
      PublishedRows(db, id, token, staged, project, now);
      PublishedInContract(config, db, PublishedResult(db, id, token, staged, project, now), id, staged);
    }
  }

  lemma PublishedInContract(config: Config, db: Tables, db': Tables, id: nat, staged: seq<StagedArtifact>)
    requires ResultsFit(config, db) && id in db.jobs && SetOk(config, db.jobs[id].operation, staged)
    requires InsertedOnly(db, id, staged) && forall role :: (id, role) !in db.artifacts
    requires forall row :: row in staged ==> row.blob in db.blobs && db.blobs[row.blob].content == row.content
    requires db'.artifacts == Inserted(db.artifacts, id, staged) && db'.blobs == db.blobs
    requires id in db'.jobs && db'.jobs == db.jobs[id := db'.jobs[id]] && db'.jobs[id].operation == db.jobs[id].operation
    ensures ResultsFit(config, db')
  {
    PublishedMeetsContract(config, db, id, db.jobs[id].operation, staged);
    ContractKept(config, db.(artifacts := db'.artifacts), db', id, db.jobs[id].operation);
    PublishedResults(config, db, db', id, staged);
  }

  lemma PublishedLinks(db: Tables, id: nat, token: nat, staged: seq<StagedArtifact>, project: nat, now: int)
    requires JobsFit(db) && RowsFit(db) && MayPublish(db, id, token, staged, now)
    requires forall key :: key in db.artifacts ==> key in Inserted(db.artifacts, id, staged)
    ensures JobsFit(PublishedResult(db, id, token, staged, project, now))
  {
    var db' := PublishedResult(db, id, token, staged, project, now);
    forall i | i in db'.jobs
      ensures LinksFit(db', i, db'.jobs[i])
    {
      assert LinksFit(db, i, db.jobs[i]);
      if db.jobs[i].cacheSource.Some? {
        var role :| (db.jobs[i].cacheSource.value, role) in db.artifacts;
        assert (db.jobs[i].cacheSource.value, role) in db'.artifacts;
      }
    }
    LifeCycle(db.jobs[id], Published(token, project), now);
  }

  lemma PublishedRows(db: Tables, id: nat, token: nat, staged: seq<StagedArtifact>, project: nat, now: int)
    requires RowsFit(db) && MayPublish(db, id, token, staged, now)
    requires InsertedOnly(db, id, staged)
    ensures RowsFit(PublishedResult(db, id, token, staged, project, now))
  {
    var db' := PublishedResult(db, id, token, staged, project, now);
    PublishedArtifactRows(db, db', id, staged);
    forall t | t in db'.transfers
      ensures t < db'.nextId && TransferFits(db', db'.transfers[t])
    {
      assert TransferFits(db, db.transfers[t]);
    }
  }

  /** The artifact table gained the staged rows of `id` and nothing else. */
  ghost predicate InsertedOnly(db: Tables, id: nat, staged: seq<StagedArtifact>) {
    var after := Inserted(db.artifacts, id, staged);
    && (forall key :: key in db.artifacts ==> key in after && after[key] == db.artifacts[key])
    && (forall i :: 0 <= i < |staged| ==>
          (id, staged[i].role) in after && after[(id, staged[i].role)] == RowArtifact(staged[i]))
    && (forall key :: key in after && key !in db.artifacts ==> key.0 == id && HasRole(staged, key.1))
  }

  lemma PublishedArtifactRows(db: Tables, db': Tables, id: nat, staged: seq<StagedArtifact>)
    requires forall key :: key in db.artifacts ==>
      key.0 in db.jobs && db.jobs[key.0].state.Succeeded? && db.artifacts[key].blob in db.blobs
    requires InsertedOnly(db, id, staged) && db'.artifacts == Inserted(db.artifacts, id, staged)
    requires db'.blobs == db.blobs && id in db'.jobs && db'.jobs[id].state.Succeeded?
    requires forall i :: i in db.jobs && i != id ==> i in db'.jobs && db'.jobs[i] == db.jobs[i]
    requires forall i :: 0 <= i < |staged| ==> staged[i].blob in db.blobs
    ensures forall key :: key in db'.artifacts ==>
      key.0 in db'.jobs && db'.jobs[key.0].state.Succeeded? && db'.artifacts[key].blob in db'.blobs
  {
    forall key | key in db'.artifacts
      ensures key.0 in db'.jobs && db'.jobs[key.0].state.Succeeded? && db'.artifacts[key].blob in db'.blobs
    {
      if key !in db.artifacts {
        var i :| 0 <= i < |staged| && staged[i].role == key.1;
        assert key == (id, staged[i].role);
      }
    }
  }

  lemma PublishedResults(config: Config, db: Tables, db': Tables, id: nat, staged: seq<StagedArtifact>)
    requires ResultsFit(config, db) && id in db.jobs && InsertedOnly(db, id, staged)
    requires db'.artifacts == Inserted(db.artifacts, id, staged) && db'.blobs == db.blobs
    requires id in db'.jobs && db'.jobs == db.jobs[id := db'.jobs[id]]
    requires MeetsContract(config, db', id, db'.jobs[id].operation)
    ensures ResultsFit(config, db')
  {
    forall i | i in db'.jobs && db'.jobs[i].state.Succeeded?
      ensures MeetsContract(config, db', i, db'.jobs[i].operation)
    {
      if i != id {
        assert MeetsContract(config, db, i, db.jobs[i].operation);
        OtherResultKept(config, db, db', id, staged, i, db.jobs[i].operation);
      }
    }
  }

  lemma OtherResultKept(config: Config, db: Tables, db': Tables, id: nat, staged: seq<StagedArtifact>,
                        other: nat, operation: Operation)
    requires MeetsContract(config, db, other, operation) && InsertedOnly(db, id, staged) && other != id
    requires db'.artifacts == Inserted(db.artifacts, id, staged) && db'.blobs == db.blobs
    ensures MeetsContract(config, db', other, operation)
  {
    OtherRowsKept(db, id, staged, other);
    ContractKept(config, db, db', other, operation);
  }

  lemma OtherRowsKept(db: Tables, id: nat, staged: seq<StagedArtifact>, other: nat)
    requires InsertedOnly(db, id, staged) && other != id
    ensures forall role :: (other, role) in Inserted(db.artifacts, id, staged) <==> (other, role) in db.artifacts
    ensures forall role :: (other, role) in db.artifacts ==>
      Inserted(db.artifacts, id, staged)[(other, role)] == db.artifacts[(other, role)]
  {
  }
}
