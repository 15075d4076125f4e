/** The processing store as it runs: one object whose tables the transactions change in place
  (backend/src/document_processing/persistence.rs and finalization.rs). A method is one
  transaction; how they interleave is the subject of the runs. */
module ProcessingStore {
  import opened Wrappers
  import opened TextOrder
  import opened ProcessingModel
  import opened ProcessingTables
  import opened ProcessingResults
  import opened ProcessingInvariant
  import opened ProcessingFinalizers
  import opened ProcessingRuns
  import opened ProcessingSteps
  import opened ProcessingProofs
  import opened ProcessingTheorems
  import opened ProcessingExpiry
  import opened ProcessingOutcomes
  import opened ProcessingVerdicts

  const MAINTENANCE_BATCH: nat := 16

  /** The answer of an admission, in the order of its checks. */
  ghost predicate Answers(config: Config, db: Tables, command: Command, admission: Admission) {
    match admission
    case Existing(id) => id in Named(db.jobs, command.idempotency) && db.jobs[id].digest == command.digest
    case Conflict => exists id :: id in Named(db.jobs, command.idempotency) && db.jobs[id].digest != command.digest
    case Reserved(id) =>
      Named(db.jobs, command.idempotency) == {} && FullFor(config, db, command).None? && id == db.nextId
    case _ => Named(db.jobs, command.idempotency) == {} && FullFor(config, db, command) == Some(admission)
  }

  lemma ReservationFits(config: Config, db: Tables, db': Tables, command: Command, now: int)
    requires TablesFit(config, db) && WithinLimits(config, db.jobs)
    requires Named(db.jobs, command.idempotency) == {} && FullFor(config, db, command).None?
    requires db' == AddJob(db, command, now)
    ensures TablesFit(config, db') && WithinLimits(config, db'.jobs)
  {
    JobAdded(config, db, command, now);
    assert db.nextId !in db.jobs;
    AdmittedWithinLimits(config, db, command, now);
  }

  lemma {:induction false} InsertedNext(artifacts: map<(nat, string), Artifact>, id: nat, staged: seq<StagedArtifact>, row: StagedArtifact)
    ensures var before := Inserted(artifacts, id, staged);
            Inserted(artifacts, id, staged + [row])
            == (if (id, row.role) in before then before else before[(id, row.role) := RowArtifact(row)])
    decreases |staged|
  {
    var longer := staged + [row];
    if staged == [] {
      assert longer[0] == row && longer[1..] == [];
    } else {
      assert longer[0] == staged[0] && longer[1..] == staged[1..] + [row];
      var first := staged[0];
      InsertedNext(if (id, first.role) in artifacts then artifacts else artifacts[(id, first.role) := RowArtifact(first)],
                   id, staged[1..], row);
    }
  }

  lemma ConsumedNext(transfers: map<nat, Transfer>, staged: seq<StagedArtifact>, row: StagedArtifact)
    ensures var before := ConsumedBy(transfers, staged);
            ConsumedBy(transfers, staged + [row])
            == (if row.transfer.Some? && row.transfer.value in before
                then before[row.transfer.value := before[row.transfer.value].(state := Consumed)] else before)
  {
    assert forall r :: r in staged + [row] <==> r in staged || r == row;
  }

  /** In the order of their roles. */
  ghost predicate ByRole(staged: seq<StagedArtifact>) {
    forall i, j :: 0 <= i < j < |staged| ==> TextLe(staged[i].role, staged[j].role)
  }

  lemma {:induction false} FirstRoleExists(rows: set<StagedArtifact>) returns (first: StagedArtifact)
    requires rows != {}
    ensures first in rows && forall row :: row in rows ==> TextLe(first.role, row.role)
    decreases rows
  {
    first :| first in rows;
    TextLeTotal(first.role, first.role);
    if rows != {first} {
      var rest := FirstRoleExists(rows - {first});
      assert forall row :: row in rows ==> row == first || row in rows - {first};
      TextLeTotal(first.role, rest.role);
      if TextLe(rest.role, first.role) {
        first := rest;
      } else {
        forall row | row in rows - {first}
          ensures TextLe(first.role, row.role)
        {
          TextLeTransitive(first.role, rest.role, row.role);
        }
      }
    }
  }

  method ListRows(rows: set<StagedArtifact>) returns (listed: seq<StagedArtifact>)
    ensures forall row :: row in listed <==> row in rows
    ensures forall i, j :: 0 <= i < j < |listed| ==> listed[i] != listed[j]
    ensures ByRole(listed)
  {
    listed := [];
    var rest := rows;
    while rest != {}
      invariant rest <= rows
      invariant forall row :: row in listed ==> row in rows && row !in rest
      invariant forall row :: row in rows ==> row in rest || row in listed
      invariant forall i, j :: 0 <= i < j < |listed| ==> listed[i] != listed[j]
      invariant ByRole(listed) && forall i, row :: 0 <= i < |listed| && row in rest ==> TextLe(listed[i].role, row.role)
      decreases rest
    {
      ghost var first := FirstRoleExists(rest);
      var row :| row in rest && forall other :: other in rest ==> TextLe(row.role, other.role);
      ghost var before := listed;
      assert row !in before;
      listed, rest := listed + [row], rest - {row};
      assert forall r :: r in listed <==> r in before || r == row;
      assert forall i :: 0 <= i < |before| ==> listed[i] in before;
    }
  }

  lemma NothingReclaimed(db: Tables, now: int)
    ensures ReclaimedJobs(db, {}, now) == db
  {
    assert ReclaimedJobs(db, {}, now).jobs == db.jobs && ReclaimedJobs(db, {}, now).transfers == db.transfers;
  }

  lemma ReclaimedNext(db: Tables, batch: set<nat>, id: nat, now: int)
    requires ClaimExpired(db, id, now) && id !in batch
    ensures var before, after := ReclaimedJobs(db, batch, now), ReclaimedJobs(db, batch + {id}, now);
            && id in before.jobs && before.jobs[id] == db.jobs[id]
            && after.jobs == before.jobs[id := Next(db.jobs[id], ClaimLost, now)]
            && after.transfers == (map t | t in before.transfers ::
                 if before.transfers[t].job == id && before.transfers[t].attempt == db.jobs[id].attempts
                 then ExpiredTransfer(before.transfers[t]) else before.transfers[t])
  {
  }

  lemma MaintenanceGranted(config: Config, db: Tables, db': Tables, batch: set<nat>, now: int)
    requires TablesFit(config, db) && WithinLimits(config, db.jobs) && db' == Maintained(db, batch, now)
    ensures TablesFit(config, db') && WithinLimits(config, db'.jobs)
  {
    var aged := Aged(db, batch, now);
    AgedTame(config, db, aged, batch, now);
    RetiredTame(config, aged, db', DeletableJobs(aged, now));
    AgedTables(db, batch, now);
    RemovedRows(aged, Removed(aged, DeletableJobs(aged, now)), DeletableJobs(aged, now));
    FewerActive(config, db.jobs, db'.jobs);
  }

  lemma PassGranted(config: Config, db: Tables, db': Tables, batch: set<nat>, now: int)
    requires TablesFit(config, db) && WithinLimits(config, db.jobs) && db' == Maintained(db, batch, now)
    requires forall id :: id in batch ==> ClaimExpired(db, id, now)
    ensures TablesFit(config, db') && WithinLimits(config, db'.jobs) && PassOutcome(db, batch, now, db')
  {
    MaintenanceGranted(config, db, db', batch, now);
    MaintainedOutcome(config, db, batch, now, db');
  }

  lemma LeaseGranted(config: Config, db: Tables, db': Tables, id: nat, expires: int, now: int)
    requires TablesFit(config, db) && WithinLimits(config, db.jobs) && id in db.jobs && db.jobs[id].state.Finalizing?
    requires db.jobs[id].token.None? || db.jobs[id].tokenExpires <= now
    requires db' == Leased(db, id, expires, now)
    ensures TablesFit(config, db') && WithinLimits(config, db'.jobs)
    ensures var fin := Finalizer(id, db.nextId, db.jobs[id], None, None);
            FinFits(config, db', fin) && Current(db', fin) && db'.jobs[id].tokenExpires == expires
  {
    AcquireTables(config, db, db', id, expires, now);
    FewerActive(config, db.jobs, db'.jobs);
  }

  lemma PublicationGranted(config: Config, db: Tables, db': Tables, fin: Finalizer, now: int)
    requires TablesFit(config, db) && WithinLimits(config, db.jobs) && FinFits(config, db, fin)
    requires fin.verdict == Some(Publish) && db' == AfterPublish(db, fin, now)
    ensures TablesFit(config, db') && WithinLimits(config, db'.jobs)
    ensures Publishes(db, fin, now) ==>
      && fin.job in db'.jobs && db'.jobs[fin.job].state.Succeeded?
      && MeetsContract(config, db', fin.job, db'.jobs[fin.job].operation)
  {
    AfterPublishTables(config, db, db', fin, now);
    AfterPublishJobs(db, db', fin, now);
    FewerActive(config, db.jobs, db'.jobs);
  }

  lemma PublicationWritten(config: Config, db: Tables, fin: Finalizer, now: int, db': Tables)
    requires TablesFit(config, db) && FinFits(config, db, fin) && fin.verdict == Some(Publish)
    requires db' == AfterPublish(db, fin, now)
    ensures Publishes(db, fin, now) ==> PublicationOutcome(db, fin.job, fin.staged.value, db.nextId, now, db')
  {
    if Publishes(db, fin, now) {
      var published := PublishedResult(db, fin.job, fin.token, fin.staged.value, db.nextId, now);
      LeaseVouches(config, db, fin, now);
      assert db.jobs[fin.job].resultProject.None?;
      PublishedOutcome(config, db, fin.job, fin.token, fin.staged.value, db.nextId, now, published);
    }
  }

  predicate Free(db: Tables, id: nat, now: int) {
    && id in db.jobs && db.jobs[id].state.Finalizing?
    && (db.jobs[id].token.None? || db.jobs[id].tokenExpires <= now)
  }

  /** Up to sixteen running jobs whose claims have run out, all of them if there are fewer, and those
    that ran out first. */
  ghost predicate LostBatch(jobs: map<nat, Job>, batch: set<nat>, now: int) {
    && |batch| <= 16 && (forall id :: id in batch ==> id in jobs && jobs[id].state == Running && jobs[id].claimExpires <= now)
    && (forall id :: id in jobs && jobs[id].state == Running && jobs[id].claimExpires <= now && id !in batch ==>
          |batch| == 16 && forall other :: other in batch ==> jobs[other].claimExpires <= jobs[id].claimExpires)
  }

  lemma BatchIsLost(db: Tables, batch: set<nat>, now: int)
    requires |batch| <= MAINTENANCE_BATCH && batch <= db.jobs.Keys && OldestFirst(db, batch, now)
    requires forall id :: id in batch ==> ClaimExpired(db, id, now)
    requires |batch| < MAINTENANCE_BATCH ==> forall id :: ClaimExpired(db, id, now) ==> id in batch
    ensures LostBatch(db.jobs, batch, now)
  {
    forall id | id in db.jobs && db.jobs[id].state == Running && db.jobs[id].claimExpires <= now && id !in batch
      ensures |batch| == 16 && forall other :: other in batch ==> db.jobs[other].claimExpires <= db.jobs[id].claimExpires
    {
      assert ClaimExpired(db, id, now);
    }
  }

  /** No claim in the batch expired later than an expired one left out of it. */
  predicate OldestFirst(db: Tables, batch: set<nat>, now: int)
    requires batch <= db.jobs.Keys
  {
    forall id, other :: id in batch && other in db.jobs && other !in batch && ClaimExpired(db, other, now) ==>
      db.jobs[id].claimExpires <= db.jobs[other].claimExpires
  }

  lemma OldestNext(db: Tables, batch: set<nat>, waiting: set<nat>, id: nat, now: int)
    requires batch <= db.jobs.Keys && OldestFirst(db, batch, now) && id in waiting
    requires forall i :: i in waiting || i in batch <==> ClaimExpired(db, i, now)
    requires waiting <= db.jobs.Keys && forall other :: other in waiting ==> db.jobs[id].claimExpires <= db.jobs[other].claimExpires
    ensures batch + {id} <= db.jobs.Keys && OldestFirst(db, batch + {id}, now)
  {
    assert ClaimExpired(db, id, now);
  }

  method Earliest(ids: set<nat>, at: map<nat, int>) returns (first: nat)
    requires ids != {} && ids <= at.Keys
    ensures first in ids && forall id :: id in ids ==> at[first] <= at[id]
  {
    ghost var some := EarliestExists(ids, at);
    first :| first in ids && forall id :: id in ids ==> at[first] <= at[id];
  }

  /** Some job of a nonempty set comes first by the given times. */
  lemma {:induction false} EarliestExists(ids: set<nat>, at: map<nat, int>) returns (first: nat)
    requires ids != {} && ids <= at.Keys
    ensures first in ids && forall id :: id in ids ==> at[first] <= at[id]
    decreases ids
  {
    first :| first in ids;
    if ids != {first} {
      var rest := EarliestExists(ids - {first}, at);
      assert forall id :: id in ids ==> id == first || id in ids - {first};
      first := if at[first] <= at[rest] then first else rest;
    }
  }

  lemma LoadedAndJudged(config: Config, db: Tables, fin: Finalizer, staged: seq<StagedArtifact>, access: Access)
    requires FinFits(config, db, fin) && RowsFit(db) && fin.staged.None?
    requires Loaded(db, fin.job, fin.token, fin.leased.cacheSource, staged)
    ensures FilesStored(db, staged)
    ensures FinFits(config, db, fin.(staged := Some(staged), verdict := Some(Judged(config, fin.leased, staged, access))))
  {
    LoadedIsBacked(config, db, fin, staged);
    JudgedFits(config, db, fin.(staged := Some(staged)), access);
  }

  class DocumentProcessing {
    const config: Config
    var jobs: map<nat, Job>
    var delivered: set<(nat, nat)>
    var transfers: map<nat, Transfer>
    var artifacts: map<(nat, string), Artifact>
    var blobs: map<nat, Blob>
    var projects: set<nat>
    var nextId: nat

    function View(): Tables
      reads this
    {
      Tables(jobs, delivered, transfers, artifacts, blobs, projects, nextId)
    }

    ghost predicate Valid()
      reads this
    {
      TablesFit(config, View()) && WithinLimits(config, jobs)
    }

    constructor (config: Config)
      ensures Valid() && this.config == config && View() == Tables(map[], {}, map[], map[], map[], {}, 0)
    {
      this.config := config;
      jobs, delivered, transfers, artifacts, blobs, projects, nextId := map[], {}, map[], map[], map[], {}, 0;
      new;
      assert ActiveJobs(jobs) == {};
      assert forall r: nat :: ActiveOf(jobs, r) == {} && ActiveIn(jobs, r) == {};
    }

    // ---- admission ----

    /** Admission under the admission lock: an existing key first, then the three limits. */
    method ReserveJob(command: Command, now: int) returns (admission: Admission)
      requires Valid()
      modifies this
      ensures Valid() && Answers(config, old(View()), command, admission)
      ensures View() == if admission.Reserved? then AddJob(old(View()), command, now) else old(View())
      ensures AdmissionOutcome(config, old(View()), command, now, admission, View())
    {
      var existing := FindIdempotentJob(command.idempotency);
      if existing.Some? {
        return if jobs[existing.value].digest != command.digest then Conflict else Existing(existing.value);
      }
      AdmittedOutcome(config, View(), command, now);
      var full := CheckLimits(command);
      if full.Some? {
        return full.value;
      }
      var id := AddReserved(command, now);
      admission := Reserved(id);
    }

    method AddReserved(command: Command, now: int) returns (id: nat)
      requires Valid() && Named(jobs, command.idempotency) == {} && FullFor(config, View(), command).None?
      modifies this
      ensures Valid() && id == old(nextId) && View() == AddJob(old(View()), command, now)
    {
      ghost var next := AddJob(View(), command, now);
      ReservationFits(config, View(), next, command, now);
      id := nextId;
      jobs := jobs[id := NewJob(command, now)];
      nextId := nextId + 1;
      assert View() == next;
    }

    method FindIdempotentJob(idempotency: Idempotency) returns (existing: Option<nat>)
      ensures existing.None? <==> Named(jobs, idempotency) == {}
      ensures existing.Some? ==> existing.value in Named(jobs, idempotency)
    {
      var named := Named(jobs, idempotency);
      if named == {} {
        return None;
      }
      var id :| id in named;
      existing := Some(id);
    }

    /** The limits in their order: all jobs, the requester's, the project's. */
    method CheckLimits(command: Command) returns (full: Option<Admission>)
      ensures full == FullFor(config, View(), command)
    {
      if |ActiveJobs(jobs)| >= config.maxJobs {
        return Some(GlobalLimit);
      }
      if |ActiveOf(jobs, command.idempotency.requester)| >= config.maxPerUser {
        return Some(RequesterLimit);
      }
      if command.project.Some? && |ActiveIn(jobs, command.project.value)| >= config.maxPerProject {
        return Some(ProjectLimit);
      }
      full := None;
    }

    /** Stores content once: a row with the same digest and size is used again. */
    method StoreBlob(digest: int, content: string) returns (blob: nat)
      requires TablesFit(config, View())
      modifies this
      ensures BlobFor(old(View()), blob, digest, content)
      ensures View() == WithBlob(old(View()), blob, digest, content)
      ensures TablesFit(config, View()) && blob in blobs && OnlyGains(old(View()), View())
      ensures blobs[blob].digest == digest && |blobs[blob].content| == |content|
      ensures blobs == if blob in old(blobs) then old(blobs) else old(blobs)[blob := Blob(digest, content)]
    {
      var same := set b | b in blobs && blobs[b].digest == digest && |blobs[b].content| == |content|;
      if same != {} {
        blob :| blob in same;
      } else {
        blob := nextId;
        assert forall b :: !StoredAs(View(), b, digest, content) by {
          assert forall b :: StoredAs(View(), b, digest, content) ==> b in same;
        }
        BlobTame(config, View(), blob, digest, content);
        blobs := blobs[blob := Blob(digest, content)];
        nextId := nextId + 1;
      }
    }

    method WithEvent(id: nat, e: JobEvent, now: int)
      requires Valid() && !e.Published? && (e.InputStored? ==> e.blob in blobs) && !e.CacheFound?
      modifies this
      ensures Valid() && View() == WithJob(old(View()), id, e, now)
    {
      EventAdvances(config, View(), id, e, now);
      FewerActive(config, jobs, WithJob(View(), id, e, now).jobs);
      if id in jobs {
        jobs := jobs[id := Next(jobs[id], e, now)];
      }
    }

    /** Queues a prepared job; for any other job the stored content is rolled back. */
    method StorePreparedInput(id: nat, digest: int, content: string, now: int) returns (queued: bool)
      requires Valid()
      modifies this
      ensures Valid()
      ensures queued <==> id in old(jobs) && old(jobs)[id].state.Preparing? && !old(jobs)[id].cancelRequested
      ensures !queued ==> View() == old(View())
      ensures queued ==>
        && id in jobs && jobs[id].state.Queued? && jobs[id].inputBlob.Some?
        && StoredAs(View(), jobs[id].inputBlob.value, digest, content)
        && View() == WithJob(WithBlob(old(View()), jobs[id].inputBlob.value, digest, content), id,
                             InputStored(jobs[id].inputBlob.value), now)
      ensures queued ==>
        && QueuedWith(old(jobs)[id], jobs[id], jobs[id].inputBlob.value, now)
        && jobs == old(jobs)[id := jobs[id]] && transfers == old(transfers) && artifacts == old(artifacts)
        && blobs[jobs[id].inputBlob.value].digest == digest
        && |blobs[jobs[id].inputBlob.value].content| == |content|
        && (jobs[id].inputBlob.value !in old(blobs) ==> blobs[jobs[id].inputBlob.value].content == content)
        && forall b :: b in old(blobs) ==> b in blobs && blobs[b] == old(blobs)[b]
    {
      if id !in jobs || !jobs[id].state.Preparing? || jobs[id].cancelRequested {
        return false;
      }
      var blob := StoreBlob(digest, content);
      WithEvent(id, InputStored(blob), now);
      queued := true;
    }

    method MarkPreparationFailed(id: nat, now: int)
      requires Valid()
      modifies this
      ensures Valid() && View() == old(View()).(jobs := jobs) && jobs.Keys == old(jobs).Keys
      ensures forall i :: i in jobs && (i != id || !old(jobs)[i].state.Preparing?) ==> jobs[i] == old(jobs)[i]
      ensures id in old(jobs) && old(jobs)[id].state.Preparing? ==>
        jobs[id].state.Failed? && jobs[id].completedAt == Some(now) && Continues(old(jobs)[id], jobs[id])
    {
      WithEvent(id, PreparationFailed, now);
    }

    /** Cancels at once while nobody works on the job, and only asks for it while a worker does. */
    method CancelJob(user: nat, id: nat, now: int) returns (found: bool)
      requires Valid()
      modifies this
      ensures Valid() && (found <==> id in old(jobs) && old(jobs)[id].idempotency.requester == user)
      ensures View() == if found then WithJob(old(View()), id, CancelAsked, now) else old(View())
      ensures View() == old(View()).(jobs := jobs) && jobs.Keys == old(jobs).Keys
      ensures forall i :: i in jobs && (!found || i != id) ==> jobs[i] == old(jobs)[i]
      ensures found ==> CancelOutcome(old(jobs)[id], jobs[id], now)
      ensures found && Active(old(jobs)[id].state) && !old(jobs)[id].state.Finalizing? ==>
        jobs[id].state.Cancelled? || (jobs[id].state.Running? && jobs[id].cancelRequested)
    {
      found := id in jobs && jobs[id].idempotency.requester == user;
      if found {
        CancelledOutcome(jobs[id], now);
        WithEvent(id, CancelAsked, now);
      }
    }

    // ---- maintenance ----

    /** One pass: at most a batch of lost claims, then queue deadlines, transfer deadlines,
      retention and unreferenced blobs. */
    method MaintainLifecycle(now: int) returns (ghost batch: set<nat>, reclaimed: nat)
      requires Valid()
      modifies this
      ensures Valid() && View() == Maintained(old(View()), batch, now)
      ensures PassOutcome(old(View()), batch, now, View())
      ensures reclaimed == |batch| && LostBatch(old(jobs), batch, now)
    {
      batch, reclaimed := ReclaimLostClaims(now);
      ApplyDeadlines(now);
      assert View() == Aged(old(View()), batch, now);
      DeleteRetained(now);
      CollectBlobs();
      PassGranted(config, old(View()), View(), batch, now);
      BatchIsLost(old(View()), batch, now);
    }

    method ReclaimLostClaims(now: int) returns (ghost batch: set<nat>, reclaimed: nat)
      modifies this
      ensures View() == ReclaimedJobs(old(View()), batch, now) && reclaimed == |batch| <= MAINTENANCE_BATCH
      ensures forall id :: id in batch ==> ClaimExpired(old(View()), id, now)
      ensures reclaimed < MAINTENANCE_BATCH ==> forall id :: ClaimExpired(old(View()), id, now) ==> id in batch
      ensures batch <= old(jobs).Keys && OldestFirst(old(View()), batch, now)
    {
      ghost var start := View();
      var waiting := set id | id in jobs && jobs[id].state == Running && jobs[id].claimExpires <= now;
      batch, reclaimed := {}, 0;
      NothingReclaimed(View(), now);
      while waiting != {} && reclaimed < MAINTENANCE_BATCH
        invariant View() == ReclaimedJobs(start, batch, now) && reclaimed == |batch| <= MAINTENANCE_BATCH
        invariant waiting !! batch
        invariant forall id :: id in waiting || id in batch <==> ClaimExpired(start, id, now)
        invariant batch <= start.jobs.Keys && OldestFirst(start, batch, now)
        invariant forall id :: id in waiting ==> id in jobs && jobs[id] == start.jobs[id]
        decreases waiting
      {
        var id := ReclaimNext(waiting, start, batch, now);
        batch, reclaimed, waiting := batch + {id}, reclaimed + 1, waiting - {id};
      }
    }

    /** The waiting claim that ran out first. */
    method ReclaimNext(waiting: set<nat>, ghost start: Tables, ghost batch: set<nat>, now: int) returns (id: nat)
      requires waiting != {} && waiting !! batch && View() == ReclaimedJobs(start, batch, now)
      requires forall i :: i in waiting || i in batch <==> ClaimExpired(start, i, now)
      requires batch <= start.jobs.Keys && OldestFirst(start, batch, now)
      requires forall i :: i in waiting ==> i in jobs && i in start.jobs && jobs[i] == start.jobs[i]
      modifies this
      ensures id in waiting && View() == ReclaimedJobs(start, batch + {id}, now)
      ensures batch + {id} <= start.jobs.Keys && OldestFirst(start, batch + {id}, now)
      ensures forall i :: i in waiting && i != id ==> i in jobs && jobs[i] == start.jobs[i]
    {
      id := Earliest(waiting, map i | i in waiting :: jobs[i].claimExpires);
      ReclaimedNext(start, batch, id, now);
      OldestNext(start, batch, waiting, id, now);
      ReclaimOne(id, now);
    }

    method ApplyDeadlines(now: int)
      modifies this
      ensures View() == TimedOutTransfers(TimedOutJobs(old(View()), now), now)
    {
      jobs := map id | id in jobs :: Next(jobs[id], QueueTimedOut, now);
      transfers := map t | t in transfers ::
        if transfers[t].expires <= now then ExpiredTransfer(transfers[t]) else transfers[t];
    }

    /** A lost claim: its files expire and its job is requeued or closed. */
    method ReclaimOne(id: nat, now: int)
      requires id in jobs
      modifies this
      ensures View() == old(View()).(jobs := jobs, transfers := transfers)
      ensures jobs == old(jobs)[id := Next(old(jobs)[id], ClaimLost, now)]
      ensures transfers == (map t | t in old(transfers) ::
        if old(transfers)[t].job == id && old(transfers)[t].attempt == old(jobs)[id].attempts
        then ExpiredTransfer(old(transfers)[t]) else old(transfers)[t])
    {
      transfers := map t | t in transfers ::
        if transfers[t].job == id && transfers[t].attempt == jobs[id].attempts then ExpiredTransfer(transfers[t]) else transfers[t];
      jobs := jobs[id := Next(jobs[id], ClaimLost, now)];
    }

    method DeleteRetained(now: int)
      modifies this
      ensures View() == Removed(old(View()), DeletableJobs(old(View()), now))
    {
      var doomed := set id | id in jobs && Deletable(View(), id, now);
      var kept := map id | id in jobs && id !in doomed :: Unlinked(jobs[id], doomed);
      delivered := set a | a in delivered && a.0 !in doomed;
      transfers := map t | t in transfers && transfers[t].job !in doomed :: transfers[t];
      artifacts := map key | key in artifacts && key.0 !in doomed :: artifacts[key];
      jobs := kept;
    }

    method CollectBlobs()
      modifies this
      ensures View() == SweptBlobs(old(View()))
    {
      blobs := map b | b in blobs && Referenced(View(), b) :: blobs[b];
    }

    // ---- finalization ----

    /** The free job that was touched longest ago. */
    method LongestFree(now: int) returns (id: Option<nat>)
      ensures id.None? <==> forall i :: !Free(View(), i, now)
      ensures id.None? ==> forall i :: i in jobs && jobs[i].state == Finalizing ==> jobs[i].token.Some? && jobs[i].tokenExpires > now
      ensures id.Some? ==> Free(View(), id.value, now) && forall i :: Free(View(), i, now) ==>
        jobs[id.value].updatedAt <= jobs[i].updatedAt
    {
      var free := set i | i in jobs && jobs[i].state == Finalizing && (jobs[i].token == None || jobs[i].tokenExpires <= now);
      assert forall i :: Free(View(), i, now) ==> i in free;
      assert forall i :: i in jobs && jobs[i].state == Finalizing && i !in free ==> jobs[i].token.Some? && jobs[i].tokenExpires > now;
      if free == {} {
        return None;
      }
      var first := Earliest(free, map i | i in free :: jobs[i].updatedAt);
      assert Free(View(), first, now);
      id := Some(first);
    }

    /** Leases the finalizing job that nobody holds and that waited longest, under a token that was
      never used before. */
    method AcquireFinalizationLease(lease: nat, now: int) returns (fin: Option<Finalizer>)
      requires Valid()
      modifies this
      ensures Valid()
      ensures fin.None? ==> View() == old(View()) && forall id :: id in jobs && jobs[id].state == Finalizing ==>
        jobs[id].token.Some? && jobs[id].tokenExpires > now
      ensures fin.Some? ==> Free(old(View()), fin.value.job, now) && forall id :: Free(old(View()), id, now) ==>
        old(jobs)[fin.value.job].updatedAt <= old(jobs)[id].updatedAt
      ensures fin.Some? ==>
        && fin.value.job in old(jobs) && old(jobs)[fin.value.job].state.Finalizing? && fin.value.token == old(nextId)
        && View() == Leased(old(View()), fin.value.job, now + lease, now)
        && fin.value == Finalizer(fin.value.job, old(nextId), old(jobs)[fin.value.job], None, None)
        && FinFits(config, View(), fin.value) && Current(View(), fin.value)
        && jobs[fin.value.job].tokenExpires == now + lease
        && LeasedWith(old(jobs)[fin.value.job], jobs[fin.value.job], fin.value.token, now + lease, now)
        && View() == old(View()).(jobs := old(jobs)[fin.value.job := jobs[fin.value.job]], nextId := old(nextId) + 1)
    {
      var free := LongestFree(now);
      if free.None? {
        return None;
      }
      var taken := TakeLease(free.value, lease, now);
      fin := Some(taken);
    }

    method TakeLease(id: nat, lease: nat, now: int) returns (fin: Finalizer)
      requires Valid() && Free(View(), id, now)
      modifies this
      ensures Valid() && View() == Leased(old(View()), id, now + lease, now)
      ensures fin == Finalizer(id, old(nextId), old(jobs)[id], None, None)
      ensures FinFits(config, View(), fin) && Current(View(), fin) && jobs[id].tokenExpires == now + lease
      ensures LeasedWith(old(jobs)[id], jobs[id], old(nextId), now + lease, now)
      ensures View() == old(View()).(jobs := old(jobs)[id := jobs[id]], nextId := old(nextId) + 1)
    {
      LeaseGranted(config, View(), Leased(View(), id, now + lease, now), id, now + lease, now);
      fin := Finalizer(id, nextId, jobs[id], None, None);
      jobs := jobs[id := Next(jobs[id], LeaseTaken(nextId, now + lease), now)];
      nextId := nextId + 1;
      assert View() == Leased(old(View()), id, now + lease, now);
    }

    /** Loads the result in the order of roles while the token is current, and nothing otherwise; with
      a leased source, only while the job still links to it. */
    method LoadStagedArtifacts(id: nat, token: nat, leasedSource: Option<nat>) returns (staged: seq<StagedArtifact>)
      requires Valid()
      ensures Loaded(View(), id, token, leasedSource, staged) && ByRole(staged)
    {
      if id !in jobs || !jobs[id].state.Finalizing? || jobs[id].token != Some(token) {
        return [];
      }
      if leasedSource.Some? {
        if jobs[id].cacheSource != leasedSource {
          return [];
        }
        staged := LoadFromSource(id, token, leasedSource.value);
      } else {
        staged := LoadFromTransfers(id, token);
      }
    }

    method LoadFromSource(id: nat, token: nat, source: nat) returns (staged: seq<StagedArtifact>)
      requires Valid() && id in jobs && jobs[id].state.Finalizing? && jobs[id].token == Some(token)
      requires jobs[id].cacheSource == Some(source)
      ensures Loaded(View(), id, token, Some(source), staged) && staged != [] && ByRole(staged)
    {
      assert LinksFit(View(), id, jobs[id]);
      var rows := set key | key in artifacts && key.0 == source :: SourceRow(View(), source, key.1);
      staged := ListRows(rows);
      ghost var role :| (source, role) in artifacts;
      assert SourceRow(View(), source, (source, role).1) in rows;
      forall row | row in rows
        ensures IsStaged(View(), id, token, Some(source), row)
      {
      }
      forall row | IsStaged(View(), id, token, Some(source), row)
        ensures row in rows
      {
        assert row == SourceRow(View(), source, (source, row.role).1);
      }
    }

    method LoadFromTransfers(id: nat, token: nat) returns (staged: seq<StagedArtifact>)
      requires Valid() && id in jobs && jobs[id].state.Finalizing? && jobs[id].token == Some(token)
      ensures Loaded(View(), id, token, None, staged) && ByRole(staged)
    {
      var rows := set t | t in transfers && DeliveredFile(View(), id, t) :: RowOf(View(), id, t);
      staged := ListRows(rows);
      forall row | IsStaged(View(), id, token, None, row)
        ensures row in rows
      {
        assert row == RowOf(View(), id, row.transfer.value);
      }
    }

    /** Publishes row by row inside one transaction; without the lease, or when a file is gone,
      nothing is written. */
    method PublishResult(fin: Finalizer, now: int) returns (published: bool)
      requires Valid() && FinFits(config, View(), fin) && fin.verdict == Some(Publish)
      modifies this
      ensures Valid() && View() == AfterPublish(old(View()), fin, now)
      ensures published <==> Publishes(old(View()), fin, now)
      ensures published <==>
        (fin.job in old(jobs) && old(jobs)[fin.job].state == Finalizing && old(jobs)[fin.job].token == Some(fin.token)
         && old(jobs)[fin.job].tokenExpires > now && forall row :: row in fin.staged.value ==> row.blob in old(blobs))
      ensures published ==>
        && fin.job in jobs && jobs[fin.job].state.Succeeded?
        && MeetsContract(config, View(), fin.job, jobs[fin.job].operation)
        && PublicationOutcome(old(View()), fin.job, fin.staged.value, old(nextId), now, View())
      ensures !published ==> View() == old(View()).(nextId := nextId)
    {
      PublicationGranted(config, View(), AfterPublish(View(), fin, now), fin, now);
      published := LockFinalization(fin, now);
      WritePublication(fin, now, published);
      PublicationWritten(config, old(View()), fin, now, View());
    }

    method WritePublication(fin: Finalizer, now: int, held: bool)
      requires fin.staged.Some? && (held <==> Publishes(View(), fin, now))
      modifies this
      ensures View() == AfterPublish(old(View()), fin, now)
    {
      var project := nextId;
      nextId := nextId + 1;
      if held {
        PublishRows(fin.job, fin.staged.value);
        if jobs[fin.job].operation.PptxImportTypst? {
          projects := projects + {project};
        }
        jobs := jobs[fin.job := Next(jobs[fin.job], Published(fin.token, project), now)];
      }
      assert View() == AfterPublish(old(View()), fin, now);
    }

    /** The lease is looked at again under the lock, and a file that is gone fails the publication. */
    method LockFinalization(fin: Finalizer, now: int) returns (held: bool)
      requires fin.staged.Some?
      ensures held <==> Publishes(View(), fin, now)
      ensures held <==>
        (fin.job in jobs && jobs[fin.job].state == Finalizing && jobs[fin.job].token == Some(fin.token)
         && jobs[fin.job].tokenExpires > now && forall row :: row in fin.staged.value ==> row.blob in blobs)
    {
      held := fin.job in jobs && jobs[fin.job].state == Finalizing && jobs[fin.job].token == Some(fin.token)
              && jobs[fin.job].tokenExpires > now && forall row :: row in fin.staged.value ==> row.blob in blobs;
    }

    /** A role that is already published is left alone; every staged transfer is consumed. */
    method PublishRows(id: nat, staged: seq<StagedArtifact>)
      modifies this
      ensures View() == old(View()).(artifacts := Inserted(old(artifacts), id, staged),
                                     transfers := ConsumedBy(old(transfers), staged))
    {
      assert staged[..0] == [];
      assert ConsumedBy(transfers, []) == transfers;
      for i := 0 to |staged|
        invariant artifacts == Inserted(old(artifacts), id, staged[..i])
        invariant transfers == ConsumedBy(old(transfers), staged[..i])
        invariant View() == old(View()).(artifacts := artifacts, transfers := transfers)
      {
        var row := staged[i];
        InsertedNext(old(artifacts), id, staged[..i], row);
        ConsumedNext(old(transfers), staged[..i], row);
        assert staged[..i + 1] == staged[..i] + [row];
        if (id, row.role) !in artifacts {
          artifacts := artifacts[(id, row.role) := RowArtifact(row)];
        }
        if row.transfer.Some? && row.transfer.value in transfers {
          transfers := transfers[row.transfer.value := transfers[row.transfer.value].(state := Consumed)];
        }
      }
      assert staged[..|staged|] == staged;
    }

    /** The holder of a lease loads and validates. */
    method Examine(held: Finalizer, access: Access) returns (fin: Finalizer)
      requires Valid() && FinFits(config, View(), held) && held.staged.None? && held.verdict.None?
      ensures fin.staged.Some? && FinFits(config, View(), fin) && FilesStored(View(), fin.staged.value)
      ensures Loaded(View(), held.job, held.token, held.leased.cacheSource, fin.staged.value)
      ensures fin == held.(staged := fin.staged, verdict := Some(Judged(config, held.leased, fin.staged.value, access)))
    {
      var staged := LoadStagedArtifacts(held.job, held.token, held.leased.cacheSource);
      LoadedAndJudged(config, View(), held, staged, access);
      var verdict := ValidateFinalization(config, held.leased, staged, access);
      fin := held.(staged := Some(staged), verdict := Some(verdict));
    }

    /** It publishes or refuses at a later moment, which without the lease changes nothing. */
    method Settle(fin: Finalizer, now: int)
      requires Valid() && FinFits(config, View(), fin) && Current(View(), fin)
      requires fin.staged.Some? && fin.verdict.Some? && FilesStored(View(), fin.staged.value)
      modifies this
      ensures Valid() && fin.job in jobs
      ensures !Holds(old(View()), fin, now) || fin.verdict.value.RetryLater? ==> View() == old(View()).(nextId := nextId)
      ensures Holds(old(View()), fin, now) && fin.verdict.value.Publish? ==>
        jobs[fin.job].state.Succeeded? && MeetsContract(config, View(), fin.job, jobs[fin.job].operation)
      ensures Holds(old(View()), fin, now) && fin.verdict.value.Refuse? ==>
        jobs[fin.job].state.Failed? && artifacts == old(artifacts)
    {
      match fin.verdict.value
      case Publish =>
        var _ := PublishResult(fin, now);
      case Refuse(_) =>
        WithEvent(fin.job, Rejected(fin.token), now);
      case RetryLater =>
    }

    /** One job from lease to end: published in contract, refused, or left leased for later; when the
      lease has run out by the time of publication, left as it was. */
    method FinalizeOne(lease: nat, now: int, later: int, access: Access) returns (worked: bool, fin: Option<Finalizer>)
      requires Valid() && now <= later
      modifies this
      ensures Valid() && (worked <==> exists id :: Free(old(View()), id, now)) && (worked <==> fin.Some?)
      ensures worked ==>
        && Free(old(View()), fin.value.job, now) && fin.value.job in jobs && fin.value.staged.Some?
        && fin.value.verdict == Some(Judged(config, old(jobs)[fin.value.job], fin.value.staged.value, access))
      ensures worked && (now + lease <= later || fin.value.verdict.value.RetryLater?) ==>
        jobs[fin.value.job].state.Finalizing? && artifacts == old(artifacts) && projects == old(projects)
      ensures worked && now + lease > later && fin.value.verdict.value.Publish? ==>
        jobs[fin.value.job].state.Succeeded?
        && MeetsContract(config, View(), fin.value.job, jobs[fin.value.job].operation)
      ensures worked && now + lease > later && fin.value.verdict.value.Refuse? ==>
        jobs[fin.value.job].state.Failed? && artifacts == old(artifacts)
    {
      fin := AcquireFinalizationLease(lease, now);
      worked := fin.Some?;
      if worked {
        var done := Examine(fin.value, access);
        Settle(done, later);
        fin := Some(done);
      }
    }
  }
}
