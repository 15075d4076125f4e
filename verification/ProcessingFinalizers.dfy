/** What a finalizer that still holds its lease may rely on: as long as its job keeps the link it was
  leased with, the files it loaded are still stored, whatever others do meanwhile. */
module ProcessingFinalizers {
  import opened Wrappers
  import opened ProcessingModel
  import opened ProcessingTables
  import opened ProcessingResults
  import opened ProcessingInvariant
  import opened ProcessingRuns

  /** The finalizer's token is the one on its job. */
  predicate Current(db: Tables, fin: Finalizer) {
    fin.job in db.jobs && db.jobs[fin.job].state.Finalizing? && db.jobs[fin.job].token == Some(fin.token)
  }

  /** A loaded row's file is stored, and a row that retention cannot delete refers to it. */
  predicate Backed(db: Tables, fin: Finalizer, row: StagedArtifact) {
    && row.blob in db.blobs && db.blobs[row.blob].content == row.content
    && match row.transfer
       case Some(t) =>
         t in db.transfers && db.transfers[t].job == fin.job && db.transfers[t].blob == Some(row.blob)
       case None =>
         && fin.leased.cacheSource.Some?
         && (fin.leased.cacheSource.value, row.role) in db.artifacts
         && db.artifacts[(fin.leased.cacheSource.value, row.role)].blob == row.blob
  }

  /** The job is the one that was leased; only its link may have been cleared since. */
  predicate SameLease(leased: Job, job: Job) {
    && job.operation == leased.operation && job.project == leased.project
    && job.namesProject == leased.namesProject && LinkKept(leased, job)
  }

  /** The file of a loaded row has the content that was loaded for as long as it is stored. */
  predicate FileKnown(db: Tables, row: StagedArtifact) {
    row.blob < db.nextId && (row.blob in db.blobs ==> db.blobs[row.blob].content == row.content)
  }

  ghost predicate FinFits(config: Config, db: Tables, fin: Finalizer) {
    && fin.token < db.nextId
    && (fin.verdict.Some? ==> fin.staged.Some?)
    && (fin.verdict == Some(Publish) ==> SetOk(config, fin.leased.operation, fin.staged.value))
    && (fin.staged.Some? ==> forall row :: row in fin.staged.value ==> FileKnown(db, row))
    && (Current(db, fin) ==> SameLease(fin.leased, db.jobs[fin.job]))
    && (Current(db, fin) && Linked(db, fin) && fin.staged.Some? ==>
          forall row :: row in fin.staged.value ==> Backed(db, fin, row))
  }

  /** The job still has the source it was leased with, if any. */
  predicate Linked(db: Tables, fin: Finalizer)
    requires Current(db, fin)
  {
    db.jobs[fin.job].cacheSource == fin.leased.cacheSource
  }

  // ---- files are kept ----

  /** Rows of jobs that stay keep their file, files that rows refer to stay stored, and no file
    ever changes. */
  ghost predicate KeepsFiles(db: Tables, db': Tables) {
    && db.nextId <= db'.nextId
    && (forall t :: t in db.transfers && db.transfers[t].job in db'.jobs ==>
          && t in db'.transfers && db'.transfers[t].job == db.transfers[t].job
          && (db.transfers[t].blob.Some? ==> db'.transfers[t].blob == db.transfers[t].blob))
    && (forall key :: key in db.artifacts && key.0 in db'.jobs ==>
          key in db'.artifacts && db'.artifacts[key] == db.artifacts[key])
    && (forall b {:trigger Referenced(db', b)} :: b in db.blobs && Referenced(db', b) ==> b in db'.blobs)
    && FilesUnchanged(db, db')
  }

  predicate FilesUnchanged(db: Tables, db': Tables) {
    forall b :: b in db'.blobs && b < db.nextId ==> b in db.blobs && db'.blobs[b] == db.blobs[b]
  }

  lemma BackedStays(db: Tables, db': Tables, fin: Finalizer, row: StagedArtifact)
    requires KeepsFiles(db, db') && FileKnown(db, row) && Backed(db, fin, row) && fin.job in db'.jobs
    requires fin.leased.cacheSource.Some? ==> fin.leased.cacheSource.value in db'.jobs
    ensures Backed(db', fin, row)
  {
    match row.transfer {
      case Some(t) =>
        assert db'.transfers[t].blob == Some(row.blob);
        assert Referenced(db', row.blob);
      case None =>
        var key := (fin.leased.cacheSource.value, row.role);
        assert key in db'.artifacts && db'.artifacts[key].blob == row.blob;
        assert Referenced(db', row.blob);
    }
  }

  lemma FinStays(config: Config, db: Tables, db': Tables, fin: Finalizer)
    requires FinFits(config, db, fin) && KeepsFiles(db, db') && JobsFit(db')
    requires Current(db', fin) ==> Current(db, fin) && SameLease(db.jobs[fin.job], db'.jobs[fin.job])
    ensures FinFits(config, db', fin)
  {
    if Current(db', fin) && Linked(db', fin) && fin.staged.Some? {
      assert Linked(db, fin);
      assert LinksFit(db', fin.job, db'.jobs[fin.job]);
      forall row | row in fin.staged.value
        ensures Backed(db', fin, row)
      {
        BackedStays(db, db', fin, row);
      }
    }
  }

  /** Tables that only gain rows and whose jobs advance keep every file. */
  ghost predicate OnlyGains(db: Tables, db': Tables) {
    && db.nextId <= db'.nextId
    && (forall t :: t in db.transfers ==>
          && t in db'.transfers && db'.transfers[t].job == db.transfers[t].job
          && (db.transfers[t].blob.Some? ==> db'.transfers[t].blob == db.transfers[t].blob))
    && (forall key :: key in db.artifacts ==> key in db'.artifacts && db'.artifacts[key] == db.artifacts[key])
    && (forall b :: b in db.blobs ==> b in db'.blobs)
    && FilesUnchanged(db, db')
  }

  predicate JobKept(job: Job, job': Job) {
    Continues(job, job') && LeaseContinues(job, job') && (job.state.Finalizing? ==> job' == job)
    && (Active(job'.state) ==> Active(job.state)) && (job'.state.Succeeded? ==> job.state.Succeeded?)
  }

  function AgedJob(job: Job, reclaim: bool, now: int): Job {
    Next(if reclaim then Next(job, ClaimLost, now) else job, QueueTimedOut, now)
  }

  lemma AgedTables(db: Tables, batch: set<nat>, now: int)
    ensures var aged := Aged(db, batch, now);
            && aged.jobs.Keys == db.jobs.Keys && aged.artifacts == db.artifacts
            && aged.blobs == db.blobs && aged.nextId == db.nextId && aged.transfers.Keys == db.transfers.Keys
            && (forall id :: id in db.jobs ==> aged.jobs[id] == AgedJob(db.jobs[id], id in batch, now))
  {
  }

  lemma AgedTransfers(db: Tables, batch: set<nat>, now: int)
    ensures forall t :: t in db.transfers ==>
      t in Aged(db, batch, now).transfers
      && Aged(db, batch, now).transfers[t].job == db.transfers[t].job
      && Aged(db, batch, now).transfers[t].blob == db.transfers[t].blob
  {
  }

  lemma AgedJobKept(job: Job, reclaim: bool, now: int)
    requires JobFits(job)
    ensures JobKept(job, AgedJob(job, reclaim, now))
  {
  }

  /** Deleting jobs and then the files nobody refers to keeps the rows and files of the jobs that stay. */
  lemma RetirementKeepsFiles(db: Tables, doomed: set<nat>)
    requires RowsFit(db)
    ensures KeepsFiles(db, Retired(db, doomed))
  {
    var left := Removed(db, doomed);
    var swept := SweptBlobs(left);
    RemovedRows(db, left, doomed);
    forall b | b in db.blobs && Referenced(swept, b)
      ensures b in swept.blobs
    {
      assert Referenced(left, b);
    }
  }

  lemma KeepsFilesChain(db: Tables, db': Tables, db'': Tables)
    requires OnlyGains(db, db') && KeepsFiles(db', db'')
    ensures KeepsFiles(db, db'')
  {
  }

  lemma AgedGains(db: Tables, batch: set<nat>, now: int)
    ensures OnlyGains(db, Aged(db, batch, now))
  {
    AgedTables(db, batch, now);
    AgedTransfers(db, batch, now);
  }

  /** A whole pass keeps the rows and files of every job that stays. */
  lemma MaintenanceKeepsFiles(config: Config, db: Tables, batch: set<nat>, now: int)
    requires TablesFit(config, db)
    ensures KeepsFiles(db, Maintained(db, batch, now))
  {
    var aged := Aged(db, batch, now);
    AgedFits(config, db, batch, now);
    AgedGains(db, batch, now);
    RetirementKeepsFiles(aged, DeletableJobs(aged, now));
    KeepsFilesChain(db, aged, Maintained(db, batch, now));
  }
}
