/** What the requests of workers leave, as the environment of the runs makes them
  (backend/src/document_processing/worker_persistence.rs). */
module ProcessingWork {
  import opened Wrappers
  import opened ProcessingModel
  import opened ProcessingTables
  import opened ProcessingResults
  import opened ProcessingRuns
  import opened ProcessingOutcomes

  predicate OnlyJob(db: Tables, db': Tables, id: nat) {
    id in db.jobs && id in db'.jobs && db'.jobs == db.jobs[id := db'.jobs[id]]
  }

  /** A claim takes a waiting job whose time has come for one more attempt, and lets the worker fetch
    its input. */
  lemma ClaimOutcome(config: Config, s: System, id: nat, lease: nat, ttl: nat)
    requires id in s.db.jobs
    ensures Enabled(config, s, Claim(id, lease, ttl)) <==>
      var job := s.db.jobs[id];
      job.state == Queued && !job.cancelRequested && job.queueExpires > s.now && job.nextAttempt <= s.now
    ensures Enabled(config, s, Claim(id, lease, ttl)) ==>
      var job, db' := s.db.jobs[id], Apply(config, s, Claim(id, lease, ttl)).db;
      && OnlyJob(s.db, db', id) && db'.nextId == s.db.nextId + 2
      && db'.jobs[id] == job.(state := Running, attempts := job.attempts + 1, claim := Some(s.db.nextId),
                              claimExpires := s.now + lease, updatedAt := s.now)
      && db'.transfers == s.db.transfers[s.db.nextId + 1 :=
           Transfer(id, job.attempts + 1, false, "input", "", "", 0, 0, job.inputBlob, Issued, s.now + ttl)]
  {
    if Enabled(config, s, Claim(id, lease, ttl)) {
      assert Apply(config, s, Claim(id, lease, ttl)).db == Claimed(s.db, id, s.now, s.now + lease, s.now + ttl);
    }
  }

  /** A heartbeat extends a claim that has not run out. */
  lemma BeatOutcome(config: Config, s: System, id: nat, lease: nat)
    requires id in s.db.jobs
    ensures var job, db' := s.db.jobs[id], Apply(config, s, Beat(id, lease)).db;
      && OnlyJob(s.db, db', id)
      && db'.jobs[id] == if job.state == Running && job.claimExpires > s.now
                         then job.(claimExpires := s.now + lease, updatedAt := s.now) else job
  {
  }

  /** A delivery under a claim in force, of a job that nobody asked to stop, starts finalization. */
  lemma DeliveryOutcome(config: Config, s: System, id: nat)
    requires id in s.db.jobs
    ensures Enabled(config, s, Complete(id)) <==>
      s.db.jobs[id].state == Running && s.db.jobs[id].claimExpires > s.now && !s.db.jobs[id].cancelRequested
    ensures Enabled(config, s, Complete(id)) ==>
      var job, db' := s.db.jobs[id], Apply(config, s, Complete(id)).db;
      && OnlyJob(s.db, db', id) && db'.jobs[id] == job.(state := Finalizing, claim := None, token := None, updatedAt := s.now)
      && db'.delivered == s.db.delivered + {(id, job.attempts)} && db'.transfers == s.db.transfers
  {
  }

  /** An attempt that ends without a delivery: cancelled if that was asked for, queued again with a
    backoff if it may be retried and attempts are left, and otherwise failed. */
  lemma AttemptOutcome(config: Config, s: System, id: nat, retryable: bool)
    requires id in s.db.jobs && s.db.jobs[id].maxAttempts == 3
    ensures var job, db' := s.db.jobs[id], Apply(config, s, EndAttempt(id, retryable)).db;
      && OnlyJob(s.db, db', id) && db'.transfers == s.db.transfers
      && if job.state != Running || job.claimExpires <= s.now then db'.jobs[id] == job
         else if job.cancelRequested then ClosedAs(job, db'.jobs[id], Cancelled, s.now)
         else if retryable && job.attempts < 3 then
           db'.jobs[id] == job.(state := Queued, claim := None, updatedAt := s.now,
                                nextAttempt := s.now + (if job.attempts <= 1 then 1 else 2))
         else ClosedAs(job, db'.jobs[id], Failed, s.now)
  {
    assert PowerOfTwo(1) == 2;
  }

  /** An upload is announced under a claim in force, and accepted once, in time, for that attempt, with
    the announced size and digest. */
  lemma UploadOutcome(config: Config, s: System, transfer: nat, content: string, blob: nat)
    requires transfer in s.db.transfers && Enabled(config, s, Upload(transfer, content, blob))
    requires forall b :: b in s.db.blobs ==> b < s.db.nextId
    ensures var t := s.db.transfers[transfer];
      && t.job in s.db.jobs && s.db.jobs[t.job].state == Running && s.db.jobs[t.job].claimExpires > s.now
      && t.attempt == s.db.jobs[t.job].attempts && t.upload && t.state == Issued && t.expires > s.now
      && t.size == |content| && t.digest == config.digestOf(content)
    ensures var t, db' := s.db.transfers[transfer], Apply(config, s, Upload(transfer, content, blob)).db;
      && db'.transfers == s.db.transfers[transfer := t.(state := Uploaded, blob := Some(blob))] && db'.jobs == s.db.jobs
      && blob in db'.blobs && db'.blobs[blob].digest == t.digest && |db'.blobs[blob].content| == |content|
      && (blob !in s.db.blobs ==> db'.blobs[blob].content == content)
      && (forall b :: b in s.db.blobs ==> b in db'.blobs && db'.blobs[b] == s.db.blobs[b])
  {
  }

  lemma IssueOutcome(config: Config, s: System, a: Action)
    requires a.IssueUpload? && a.id in s.db.jobs
    ensures Enabled(config, s, a) <==>
      s.db.jobs[a.id].state == Running && s.db.jobs[a.id].claimExpires > s.now && !s.db.jobs[a.id].cancelRequested
    ensures Enabled(config, s, a) ==>
      var db' := Apply(config, s, a).db;
      && db'.jobs == s.db.jobs && db'.nextId == s.db.nextId + 1
      && db'.transfers == s.db.transfers[s.db.nextId :=
           Transfer(a.id, s.db.jobs[a.id].attempts, true, a.role, a.mediaType, a.filename, a.size, a.digest,
                    None, Issued, s.now + a.ttl)]
  {
  }

  /** A job that is prepared too late or not at all ends there, and a cancellation is the requester's. */
  lemma RequestOutcome(config: Config, s: System, id: nat, user: nat)
    requires id in s.db.jobs
    ensures Enabled(config, s, Cancel(id, user)) <==> s.db.jobs[id].idempotency.requester == user
    ensures Enabled(config, s, Cancel(id, user)) ==>
      var db' := Apply(config, s, Cancel(id, user)).db;
      OnlyJob(s.db, db', id) && CancelOutcome(s.db.jobs[id], db'.jobs[id], s.now)
    ensures Enabled(config, s, FailPreparation(id))
    ensures var job, db' := s.db.jobs[id], Apply(config, s, FailPreparation(id)).db;
      OnlyJob(s.db, db', id) && if job.state == Preparing then ClosedAs(job, db'.jobs[id], Failed, s.now) else db'.jobs[id] == job
  {
    CancelledOutcome(s.db.jobs[id], s.now);
  }

  /** A link that commits makes a waiting job finalize the result it found. */
  lemma LinkOutcome(config: Config, s: System, c: nat)
    requires c in s.hits && Enabled(config, s, LinkHit(c))
    ensures var hit, db' := s.hits[c], Apply(config, s, LinkHit(c)).db;
      && OnlyJob(s.db, db', hit.job) && s.db.jobs[hit.job].state == Queued && hit.source in s.db.jobs
      && db'.jobs[hit.job]
         == s.db.jobs[hit.job].(state := Finalizing, cacheSource := Some(hit.source), updatedAt := hit.now)
  {
  }

  /** A claim finds another job's result for the same input and operation, of the same project or, where
    there is none, of the same requester, that has files and is not due for retention. */
  lemma FindOutcome(config: Config, s: System, c: nat, id: nat, source: nat)
    requires c !in s.hits && id in s.db.jobs && source in s.db.jobs
    requires s.db.jobs[id].inputBlob.Some? && s.db.jobs[id].inputBlob.value in s.db.blobs
    requires s.db.jobs[source].inputBlob.Some? && s.db.jobs[source].inputBlob.value in s.db.blobs
    ensures Enabled(config, s, FindHit(c, id, source)) <==>
      var job, prior := s.db.jobs[id], s.db.jobs[source];
      && job.state == Queued && !job.cancelRequested && job.queueExpires > s.now && job.nextAttempt <= s.now
      && source != id && prior.state == Succeeded && prior.operation == job.operation
      && s.db.blobs[prior.inputBlob.value].digest == s.db.blobs[job.inputBlob.value].digest
      && prior.project == job.project
      && (job.project.Some? || prior.idempotency.requester == job.idempotency.requester)
      && prior.retainedUntil > s.now && exists role :: (source, role) in s.db.artifacts
  {
  }

  /** A lease is taken of a finalizing job that nobody holds, under a number never used before. */
  lemma LeaseOutcome(config: Config, s: System, f: nat, id: nat, lease: nat)
    requires f !in s.finalizers && id in s.db.jobs
    ensures Enabled(config, s, Acquire(f, id, lease)) <==>
      s.db.jobs[id].state == Finalizing && (s.db.jobs[id].token == None || s.db.jobs[id].tokenExpires <= s.now)
    ensures Enabled(config, s, Acquire(f, id, lease)) ==>
      var db' := Apply(config, s, Acquire(f, id, lease)).db;
      && OnlyJob(s.db, db', id) && db'.nextId == s.db.nextId + 1
      && LeasedWith(s.db.jobs[id], db'.jobs[id], s.db.nextId, s.now + lease, s.now)
  {
  }

  /** Without its lease, or after it ran out, neither verdict changes anything. */
  lemma LateVerdict(config: Config, s: System, f: nat)
    requires Enabled(config, s, Finish(f))
    requires var fin := s.finalizers[f];
             !(fin.job in s.db.jobs && s.db.jobs[fin.job].state == Finalizing && s.db.jobs[fin.job].token == Some(fin.token)
               && s.db.jobs[fin.job].tokenExpires > s.now)
    ensures Apply(config, s, Finish(f)).db.jobs == s.db.jobs && Apply(config, s, Finish(f)).db.artifacts == s.db.artifacts
    ensures Apply(config, s, Finish(f)).db.projects == s.db.projects && Apply(config, s, Finish(f)).notes == s.notes
  {
    var fin := s.finalizers[f];
    assert fin.job in s.db.jobs ==> s.db.jobs[fin.job := s.db.jobs[fin.job]] == s.db.jobs;
  }
}
