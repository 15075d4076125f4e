/** Each action of a processing run, and what it keeps of tables, leases and admission limits. */
module ProcessingSteps {
  import opened Wrappers
  import opened ProcessingModel
  import opened ProcessingTables
  import opened ProcessingResults
  import opened ProcessingInvariant
  import opened ProcessingFinalizers
  import opened ProcessingRuns

  /** Attempts that are over. */
  function ClosedAttempts(job: Job): int {
    job.attempts - (if job.state.Running? then 1 else 0)
  }

  predicate JobMoves(job: Job, job': Job) {
    && Continues(job, job') && LeaseContinues(job, job')
    && (Active(job'.state) ==> Active(job.state))
    && (job'.state.Succeeded? ==> job.state.Succeeded?)
    && ClosedAttempts(job) <= ClosedAttempts(job')
    && (job.state.Finalizing? ==> FinalizingOn(job, job'))
  }

  /** A finalizing job stays so, in the same attempt and with its link unless that is cleared, or
    comes to its end. */
  predicate FinalizingOn(job: Job, job': Job) {
    && LinkKept(job, job') && job'.attempts == job.attempts
    && (job'.state.Finalizing? || Terminal(job'.state))
  }

  lemma EventMoves(job: Job, e: JobEvent, now: int)
    requires JobFits(job) && !e.LeaseTaken? && !e.Published?
    ensures JobMoves(job, Next(job, e, now))
  {
  }

  /** What all actions but lease taking and publication have in common. */
  ghost predicate Tame(db: Tables, db': Tables) {
    && KeepsFiles(db, db')
    && (forall id :: id in db'.jobs ==>
          if id in db.jobs then JobMoves(db.jobs[id], db'.jobs[id])
          else db.nextId <= id && db'.jobs[id].state.Preparing? && db'.jobs[id].attempts == 0)
    && (forall id :: id in db.jobs && db.jobs[id].state.Finalizing? ==> id in db'.jobs)
  }

  // ---- tables ----

  lemma GainsKeepFiles(db: Tables, db': Tables)
    requires OnlyGains(db, db')
    ensures KeepsFiles(db, db')
  {
  }

  lemma EventJobs(config: Config, db: Tables, id: nat, e: JobEvent, now: int)
    requires TablesFit(config, db) && !e.Published? && !e.LeaseTaken?
    requires e.InputStored? ==> e.blob in db.blobs
    requires e.CacheFound? && id in db.jobs ==> SourceFits(db, id, db.jobs[id], e.source)
    ensures TablesFit(config, WithJob(db, id, e, now))
    ensures forall i :: i in db.jobs ==> JobMoves(db.jobs[i], WithJob(db, id, e, now).jobs[i])
  {
    EventAdvances(config, db, id, e, now);
    forall i | i in db.jobs
      ensures JobMoves(db.jobs[i], WithJob(db, id, e, now).jobs[i])
    {
      if i == id {
        EventMoves(db.jobs[i], e, now);
      }
    }
  }

  lemma EventTame(config: Config, db: Tables, id: nat, e: JobEvent, now: int)
    requires TablesFit(config, db) && !e.Published? && !e.LeaseTaken?
    requires e.InputStored? ==> e.blob in db.blobs
    requires e.CacheFound? && id in db.jobs ==> SourceFits(db, id, db.jobs[id], e.source)
    ensures TablesFit(config, WithJob(db, id, e, now)) && Tame(db, WithJob(db, id, e, now))
  {
    EventJobs(config, db, id, e, now);
    GainsKeepFiles(db, WithJob(db, id, e, now));
  }

  lemma BlobTame(config: Config, db: Tables, blob: nat, digest: int, content: string)
    requires TablesFit(config, db) && BlobFor(db, blob, digest, content)
    ensures var db' := WithBlob(db, blob, digest, content);
            && TablesFit(config, db') && blob in db'.blobs && OnlyGains(db, db')
            && db' == db.(blobs := db'.blobs, nextId := db'.nextId)
  {
    if blob !in db.blobs {
      BlobAdded(config, db, digest, content);
    }
  }

  lemma TransferTame(config: Config, db: Tables, transfer: Transfer)
    requires TablesFit(config, db) && TransferFits(db, transfer)
    ensures TablesFit(config, AddTransfer(db, transfer)) && OnlyGains(db, AddTransfer(db, transfer))
  {
    var db' := AddTransfer(db, transfer);
    forall t | t in db'.transfers
      ensures t < db'.nextId && TransferFits(db', db'.transfers[t])
    {
      if t in db.transfers && t != db.nextId {
        assert TransferFits(db, db.transfers[t]);
      }
    }
    SameRowsFit(config, db, db');
  }

  lemma TameWithGains(db: Tables, mid: Tables, db': Tables)
    requires OnlyGains(db, mid) && mid.jobs == db.jobs && OnlyGains(mid, db')
    requires forall id :: id in db'.jobs ==> id in mid.jobs && JobMoves(mid.jobs[id], db'.jobs[id])
    requires mid.jobs.Keys <= db'.jobs.Keys
    ensures Tame(db, db')
  {
    assert OnlyGains(db, db');
    GainsKeepFiles(db, db');
  }

  lemma StoreInputTame(config: Config, s: System, a: Action)
    requires TablesFit(config, s.db) && a.StoreInput? && Enabled(config, s, a)
    ensures TablesFit(config, Apply(config, s, a).db) && Tame(s.db, Apply(config, s, a).db)
  {
    BlobTame(config, s.db, a.blob, a.digest, a.content);
    var mid := WithBlob(s.db, a.blob, a.digest, a.content);
    EventTame(config, mid, a.id, InputStored(a.blob), s.now);
    TameWithGains(s.db, mid, WithJob(mid, a.id, InputStored(a.blob), s.now));
  }

  lemma NumberTaken(config: Config, db: Tables)
    requires TablesFit(config, db)
    ensures TablesFit(config, db.(nextId := db.nextId + 1)) && OnlyGains(db, db.(nextId := db.nextId + 1))
  {
    SameRowsFit(config, db, db.(nextId := db.nextId + 1));
  }

  lemma ClaimApplied(config: Config, s: System, a: Action)
    requires a.Claim? && Enabled(config, s, a)
    ensures a.id in s.db.jobs
    ensures Apply(config, s, a).db == Claimed(s.db, a.id, s.now, s.now + a.lease, s.now + a.ttl)
  {
  }

  lemma ClaimTame(config: Config, s: System, a: Action)
    requires TablesFit(config, s.db) && a.Claim? && Enabled(config, s, a)
    ensures TablesFit(config, Apply(config, s, a).db) && Tame(s.db, Apply(config, s, a).db)
  {
    ClaimApplied(config, s, a);
    ClaimedTame(config, s.db, Apply(config, s, a).db, a.id, s.now, s.now + a.lease, s.now + a.ttl);
  }

  lemma ClaimedTame(config: Config, db: Tables, db': Tables, id: nat, now: int, expires: int, until: int)
    requires TablesFit(config, db) && id in db.jobs && db' == Claimed(db, id, now, expires, until)
    ensures TablesFit(config, db') && Tame(db, db')
  {
    NumberTaken(config, db);
    var mid := db.(nextId := db.nextId + 1);
    EventJobs(config, mid, id, ClaimTaken(db.nextId, expires), now);
    assert LinksFit(db, id, db.jobs[id]);
    ClaimedTransfer(config, db, id, now, expires, until);
    ClaimedGains(db, id, now, expires, until);
  }

  lemma ClaimedTransfer(config: Config, db: Tables, id: nat, now: int, expires: int, until: int)
    requires TablesFit(config, WithJob(db.(nextId := db.nextId + 1), id, ClaimTaken(db.nextId, expires), now))
    requires id in db.jobs && LinksFit(db, id, db.jobs[id])
    ensures TablesFit(config, Claimed(db, id, now, expires, until))
  {
    var claimed := WithJob(db.(nextId := db.nextId + 1), id, ClaimTaken(db.nextId, expires), now);
    TransferTame(config, claimed, Transfer(id, claimed.jobs[id].attempts, false, "input", "", "", 0, 0,
                                           db.jobs[id].inputBlob, Issued, until));
  }

  lemma ClaimedGains(db: Tables, id: nat, now: int, expires: int, until: int)
    requires id in db.jobs && forall t :: t in db.transfers ==> t < db.nextId
    requires forall i :: i in db.jobs ==>
      JobMoves(db.jobs[i], WithJob(db.(nextId := db.nextId + 1), id, ClaimTaken(db.nextId, expires), now).jobs[i])
    ensures Tame(db, Claimed(db, id, now, expires, until))
  {
    assert OnlyGains(db, Claimed(db, id, now, expires, until));
    GainsKeepFiles(db, Claimed(db, id, now, expires, until));
  }

  lemma IssuedTame(config: Config, db: Tables, db': Tables, upload: Transfer)
    requires TablesFit(config, db) && upload.job in db.jobs && upload.blob.None? && db' == AddTransfer(db, upload)
    ensures TablesFit(config, db') && Tame(db, db')
  {
    TransferTame(config, db, upload);
    SameTame(db);
    GainsKeepFiles(db, db');
  }

  lemma IssueTame(config: Config, s: System, a: Action)
    requires TablesFit(config, s.db) && a.IssueUpload? && Enabled(config, s, a)
    ensures TablesFit(config, Apply(config, s, a).db) && Tame(s.db, Apply(config, s, a).db)
  {
    IssuedTame(config, s.db, Apply(config, s, a).db,
               Transfer(a.id, s.db.jobs[a.id].attempts, true, a.role, a.mediaType, a.filename, a.size, a.digest,
                        None, Issued, s.now + a.ttl));
  }

  lemma UploadTame(config: Config, s: System, a: Action)
    requires TablesFit(config, s.db) && a.Upload? && Enabled(config, s, a)
    ensures TablesFit(config, Apply(config, s, a).db) && Tame(s.db, Apply(config, s, a).db)
  {
    var t := s.db.transfers[a.transfer];
    assert TransferFits(s.db, t);
    BlobTame(config, s.db, a.blob, t.digest, a.content);
    UploadedTame(config, WithBlob(s.db, a.blob, t.digest, a.content), a.transfer, a.blob);
    UploadGains(config, s, a);
    GainsKeepFiles(s.db, Apply(config, s, a).db);
    SameTame(s.db);
  }

  lemma UploadGains(config: Config, s: System, a: Action)
    requires a.Upload? && Enabled(config, s, a) && s.db.transfers[a.transfer].blob.None?
    requires OnlyGains(s.db, WithBlob(s.db, a.blob, s.db.transfers[a.transfer].digest, a.content))
    ensures OnlyGains(s.db, Apply(config, s, a).db) && Apply(config, s, a).db.jobs == s.db.jobs
    ensures var stored := WithBlob(s.db, a.blob, s.db.transfers[a.transfer].digest, a.content);
            Apply(config, s, a).db == stored.(transfers := stored.transfers[a.transfer :=
              stored.transfers[a.transfer].(state := Uploaded, blob := Some(a.blob))])
  {
  }

  lemma UploadedTame(config: Config, db: Tables, transfer: nat, blob: nat)
    requires TablesFit(config, db) && transfer in db.transfers && db.transfers[transfer].blob.None? && blob in db.blobs
    ensures TablesFit(config, db.(transfers := db.transfers[transfer :=
      db.transfers[transfer].(state := Uploaded, blob := Some(blob))]))
  {
    var db' := db.(transfers := db.transfers[transfer := db.transfers[transfer].(state := Uploaded, blob := Some(blob))]);
    forall u | u in db'.transfers
      ensures u < db'.nextId && TransferFits(db', db'.transfers[u])
    {
      assert TransferFits(db, db.transfers[u]);
    }
    SameRowsFit(config, db, db');
  }

  lemma CompleteApplied(config: Config, s: System, a: Action)
    requires a.Complete? && Enabled(config, s, a)
    ensures var job := s.db.jobs[a.id];
            && AtWork(job, s.now)
            && Apply(config, s, a).db == WithJob(s.db, a.id, Delivered, s.now).(delivered := s.db.delivered + {(a.id, job.attempts)})
  {
  }

  lemma CompleteTame(config: Config, s: System, a: Action)
    requires TablesFit(config, s.db) && a.Complete? && Enabled(config, s, a)
    ensures TablesFit(config, Apply(config, s, a).db) && Tame(s.db, Apply(config, s, a).db)
  {
    CompleteApplied(config, s, a);
    DeliveredTame(config, s.db, Apply(config, s, a).db, a.id, s.now);
  }

  lemma DeliveredTame(config: Config, db: Tables, db': Tables, id: nat, now: int)
    requires TablesFit(config, db) && id in db.jobs && AtWork(db.jobs[id], now)
    requires db' == WithJob(db, id, Delivered, now).(delivered := db.delivered + {(id, db.jobs[id].attempts)})
    ensures TablesFit(config, db') && Tame(db, db')
  {
    var mid := WithJob(db, id, Delivered, now);
    EventTame(config, db, id, Delivered, now);
    NewDelivery(db, mid, db', id);
    DeliveryNoted(config, mid, db');
    GainsKeepFiles(db, db');
  }

  lemma NewDelivery(db: Tables, mid: Tables, db': Tables, id: nat)
    requires DeliveriesFit(mid) && id in db.jobs && id in mid.jobs && mid.jobs[id].state.Finalizing?
    requires mid.delivered == db.delivered && mid.jobs[id].cacheSource.None? && mid.jobs[id].attempts == db.jobs[id].attempts
    requires db' == mid.(delivered := db.delivered + {(id, db.jobs[id].attempts)})
    ensures DeliveriesFit(db')
  {
  }

  lemma DeliveryNoted(config: Config, db: Tables, db': Tables)
    requires TablesFit(config, db) && db' == db.(delivered := db'.delivered) && DeliveriesFit(db')
    requires forall a :: a in db'.delivered ==> a.0 < db'.nextId
    ensures TablesFit(config, db')
  {
    forall t | t in db'.transfers
      ensures t < db'.nextId && TransferFits(db', db'.transfers[t])
    {
      assert TransferFits(db, db.transfers[t]);
    }
    SameRowsFit(config, db, db');
  }

  /** A worker holds an unexpired claim on the job, and nobody asked it to stop. */
  predicate AtWork(job: Job, now: int) {
    job.state.Running? && job.claimExpires > now && !job.cancelRequested
  }

  lemma ReservedTame(config: Config, db: Tables, db': Tables, command: Command, now: int)
    requires TablesFit(config, db) && Named(db.jobs, command.idempotency) == {} && db' == AddJob(db, command, now)
    ensures TablesFit(config, db') && Tame(db, db')
  {
    JobAdded(config, db, command, now);
    assert db.nextId !in db.jobs;
    SameTame(db);
    GainsKeepFiles(db, db');
  }

  lemma ReserveTame(config: Config, s: System, a: Action)
    requires TablesFit(config, s.db) && a.Reserve? && Enabled(config, s, a)
    ensures TablesFit(config, Apply(config, s, a).db) && Tame(s.db, Apply(config, s, a).db)
  {
    ReservedTame(config, s.db, Apply(config, s, a).db, a.command, s.now);
  }

  lemma AgedTame(config: Config, db: Tables, db': Tables, batch: set<nat>, now: int)
    requires TablesFit(config, db) && db' == Aged(db, batch, now)
    ensures TablesFit(config, db') && Tame(db, db')
  {
    AgedFits(config, db, batch, now);
    AgedGains(db, batch, now);
    GainsKeepFiles(db, db');
    AgedTables(db, batch, now);
    forall id | id in db'.jobs
      ensures JobMoves(db.jobs[id], db'.jobs[id])
    {
      AgedAttempts(db.jobs[id], id in batch, now);
    }
  }

  lemma UnlinkedMoves(job: Job, doomed: set<nat>)
    requires JobFits(job)
    ensures JobMoves(job, Unlinked(job, doomed))
  {
  }

  /** Only ended jobs are deleted. */
  lemma RetiredTame(config: Config, db: Tables, db': Tables, doomed: set<nat>)
    requires TablesFit(config, db) && db' == Retired(db, doomed) && OnlyEnded(db, doomed)
    ensures TablesFit(config, db') && Tame(db, db')
  {
    RetirementFits(config, db, doomed);
    RetirementKeepsFiles(db, doomed);
    RemovedRows(db, Removed(db, doomed), doomed);
    forall id | id in db'.jobs
      ensures JobMoves(db.jobs[id], db'.jobs[id])
    {
      UnlinkedMoves(db.jobs[id], doomed);
    }
  }

  predicate OnlyEnded(db: Tables, doomed: set<nat>) {
    forall id :: id in doomed && id in db.jobs ==> Terminal(db.jobs[id].state)
  }

  /** What passes have chosen and claims have found is still so, as long as the jobs are kept. */
  ghost predicate PlansFit(s: System) {
    && (forall p :: p in s.passes && s.passes[p].chosen.Some? ==> ChosenFits(s.db, s.passes[p].chosen.value))
    && (forall c :: c in s.hits ==> HitFits(s.db, s.hits[c]))
  }

  predicate ChosenFits(db: Tables, chosen: set<nat>) {
    OnlyEnded(db, chosen) && forall id :: id in chosen ==> id < db.nextId
  }

  ghost predicate HitFits(db: Tables, hit: Hit) {
    && hit.job < db.nextId && hit.source < db.nextId
    && (hit.job in db.jobs && hit.source in db.jobs ==> SourceFits(db, hit.job, db.jobs[hit.job], hit.source))
  }

  lemma AgedAttempts(job: Job, reclaim: bool, now: int)
    requires JobFits(job)
    ensures JobMoves(job, AgedJob(job, reclaim, now))
  {
  }

  lemma SameTame(db: Tables)
    requires JobsFit(db)
    ensures Tame(db, db)
  {
  }

  predicate Plain(s: System, a: Action) {
    && !a.Acquire?
    && !(a.Finish? && a.f in s.finalizers && s.finalizers[a.f].verdict == Some(Publish))
  }

  predicate OneEvent(a: Action) {
    a.FailPreparation? || a.Cancel? || a.Beat? || a.EndAttempt?
  }

  function EventOf(s: System, a: Action): JobEvent
    requires OneEvent(a)
  {
    match a
    case FailPreparation(_) => PreparationFailed
    case Cancel(_, _) => CancelAsked
    case Beat(_, lease) => Heartbeat(s.now + lease)
    case EndAttempt(_, retryable) => AttemptEnded(retryable)
  }

  lemma OneEventApplied(config: Config, s: System, a: Action)
    requires Enabled(config, s, a) && OneEvent(a)
    ensures Apply(config, s, a).db == WithJob(s.db, a.id, EventOf(s, a), s.now)
  {
  }

  lemma OneEventTame(config: Config, s: System, a: Action)
    requires TablesFit(config, s.db) && Enabled(config, s, a) && OneEvent(a)
    ensures TablesFit(config, Apply(config, s, a).db) && Tame(s.db, Apply(config, s, a).db)
  {
    OneEventApplied(config, s, a);
    EventTame(config, s.db, a.id, EventOf(s, a), s.now);
  }

  lemma RefusalTame(config: Config, s: System, a: Action)
    requires TablesFit(config, s.db) && a.Finish? && Enabled(config, s, a) && Plain(s, a)
    ensures TablesFit(config, Apply(config, s, a).db) && Tame(s.db, Apply(config, s, a).db)
  {
    SameTame(s.db);
    if s.finalizers[a.f].verdict.value.Refuse? {
      EventTame(config, s.db, s.finalizers[a.f].job, Rejected(s.finalizers[a.f].token), s.now);
    }
  }

  predicate TouchesNoTable(a: Action) {
    a.Tick? || a.Load? || a.Validate? || a.GiveUp? || a.FindHit? || a.ChooseExpired?
  }

  lemma LinkTame(config: Config, s: System, a: Action)
    requires TablesFit(config, s.db) && PlansFit(s) && a.LinkHit? && Enabled(config, s, a)
    ensures TablesFit(config, Apply(config, s, a).db) && Tame(s.db, Apply(config, s, a).db)
  {
    var hit := s.hits[a.c];
    assert HitFits(s.db, hit);
    EventTame(config, s.db, hit.job, CacheFound(hit.source), hit.now);
  }

  lemma PassTame(config: Config, s: System, a: Action)
    requires TablesFit(config, s.db) && PlansFit(s) && (a.Maintain? || a.DeleteExpired?) && Enabled(config, s, a)
    ensures TablesFit(config, Apply(config, s, a).db) && Tame(s.db, Apply(config, s, a).db)
  {
    if a.Maintain? {
      AgedTame(config, s.db, Apply(config, s, a).db, a.batch, s.now);
    } else {
      RetiredTame(config, s.db, Apply(config, s, a).db, s.passes[a.p].chosen.value);
    }
  }

  lemma StepTame(config: Config, s: System, a: Action)
    requires TablesFit(config, s.db) && PlansFit(s) && Enabled(config, s, a) && Plain(s, a)
    ensures TablesFit(config, Apply(config, s, a).db) && Tame(s.db, Apply(config, s, a).db)
  {
    if OneEvent(a) || TouchesNoTable(a) || a.Maintain? || a.DeleteExpired? {
      UpkeepTame(config, s, a);
    } else if a.StoreInput? || a.Claim? || a.IssueUpload? || a.Upload? || a.Complete? {
      WorkTame(config, s, a);
    } else {
      EdgeTame(config, s, a);
    }
  }

  lemma UpkeepTame(config: Config, s: System, a: Action)
    requires TablesFit(config, s.db) && PlansFit(s) && Enabled(config, s, a)
    requires OneEvent(a) || TouchesNoTable(a) || a.Maintain? || a.DeleteExpired?
    ensures TablesFit(config, Apply(config, s, a).db) && Tame(s.db, Apply(config, s, a).db)
  {
    if OneEvent(a) {
      OneEventTame(config, s, a);
    } else if TouchesNoTable(a) {
      StillApplied(config, s, a);
      SameTame(s.db);
    } else {
      PassTame(config, s, a);
    }
  }

  lemma StillApplied(config: Config, s: System, a: Action)
    requires Enabled(config, s, a) && TouchesNoTable(a)
    ensures Apply(config, s, a).db == s.db
  {
  }

  /** Admission, cache hits and refusals. */
  lemma EdgeTame(config: Config, s: System, a: Action)
    requires TablesFit(config, s.db) && PlansFit(s) && Enabled(config, s, a) && Plain(s, a)
    requires a.Reserve? || a.LinkHit? || a.Finish?
    ensures TablesFit(config, Apply(config, s, a).db) && Tame(s.db, Apply(config, s, a).db)
  {
    if a.Reserve? {
      ReserveTame(config, s, a);
    } else if a.LinkHit? {
      LinkTame(config, s, a);
    } else {
      RefusalTame(config, s, a);
    }
  }

  /** From the prepared input to the delivered result. */
  lemma WorkTame(config: Config, s: System, a: Action)
    requires TablesFit(config, s.db) && Enabled(config, s, a)
    requires a.StoreInput? || a.Claim? || a.IssueUpload? || a.Upload? || a.Complete?
    ensures TablesFit(config, Apply(config, s, a).db) && Tame(s.db, Apply(config, s, a).db)
  {
    if a.StoreInput? {
      StoreInputTame(config, s, a);
    } else if a.Claim? {
      ClaimTame(config, s, a);
    } else if a.IssueUpload? {
      IssueTame(config, s, a);
    } else if a.Upload? {
      UploadTame(config, s, a);
    } else {
      CompleteTame(config, s, a);
    }
  }
}
