/** The invariant of whole processing runs: tables, leases, admission limits and the history of
  publications and requeues. */
module ProcessingProofs {
  import opened Wrappers
  import opened Sets
  import opened ProcessingModel
  import opened ProcessingTables
  import opened ProcessingResults
  import opened ProcessingInvariant
  import opened ProcessingFinalizers
  import opened ProcessingRuns
  import opened ProcessingSteps

  ghost predicate WithinLimits(config: Config, jobs: map<nat, Job>) {
    && |ActiveJobs(jobs)| <= config.maxJobs
    && (forall requester: nat :: |ActiveOf(jobs, requester)| <= config.maxPerUser)
    && (forall project: nat :: |ActiveIn(jobs, project)| <= config.maxPerProject)
  }

  function Requeues(notes: seq<Note>, id: nat): nat {
    if notes == [] then 0
    else Requeues(notes[..|notes| - 1], id) + (if notes[|notes| - 1] == JobRequeued(id) then 1 else 0)
  }

  /** Requeues follow closed attempts, and one attempt is always left after them. */
  ghost predicate RequeuesFit(db: Tables, notes: seq<Note>) {
    && (forall id {:trigger Requeues(notes, id)} :: Requeues(notes, id) <= MAX_ATTEMPTS - 1)
    && (forall id {:trigger Requeues(notes, id)} :: id in db.jobs ==> Requeues(notes, id) <= ClosedAttempts(db.jobs[id]))
    && (forall id {:trigger Requeues(notes, id)} :: id >= db.nextId ==> Requeues(notes, id) == 0)
  }

  /** What a publication note says is still so, as long as the job is kept. */
  predicate NoteFits(db: Tables, note: Note) {
    note.JobPublished? ==>
      && note.job < db.nextId && note.project < db.nextId
      && (note.job in db.jobs ==>
            && db.jobs[note.job].state.Succeeded?
            && db.jobs[note.job].resultProject
               == if db.jobs[note.job].operation.PptxImportTypst? then Some(note.project) else None)
  }

  /** No job and no project occurs in two publications; every success has been noted. */
  ghost predicate PublicationsFit(db: Tables, notes: seq<Note>) {
    && (forall k :: 0 <= k < |notes| ==> NoteFits(db, notes[k]))
    && (forall k, l :: 0 <= k < l < |notes| && notes[k].JobPublished? && notes[l].JobPublished? ==>
          notes[k].job != notes[l].job && notes[k].project != notes[l].project)
    && (forall id :: id in db.jobs && db.jobs[id].state.Succeeded? ==> PublishedIn(notes, id))
  }

  ghost predicate PublishedIn(notes: seq<Note>, id: nat) {
    exists k :: 0 <= k < |notes| && notes[k].JobPublished? && notes[k].job == id
  }

  ghost predicate SysFits(config: Config, s: System) {
    && TablesFit(config, s.db)
    && WithinLimits(config, s.db.jobs)
    && (forall f {:trigger FinFits(config, s.db, s.finalizers[f])} :: f in s.finalizers ==> FinFits(config, s.db, s.finalizers[f]))
    && PublicationsFit(s.db, s.notes)
    && RequeuesFit(s.db, s.notes)
    && PlansFit(s)
  }

  // ---- admission limits ----

  lemma FewerActive(config: Config, jobs: map<nat, Job>, jobs': map<nat, Job>)
    requires WithinLimits(config, jobs)
    requires forall id :: id in jobs' && Active(jobs'[id].state) ==>
      id in jobs && Active(jobs[id].state)
      && jobs'[id].idempotency == jobs[id].idempotency && jobs'[id].project == jobs[id].project
    ensures WithinLimits(config, jobs')
  {
    SubsetSize(ActiveJobs(jobs'), ActiveJobs(jobs));
    forall requester: nat
      ensures |ActiveOf(jobs', requester)| <= config.maxPerUser
    {
      SubsetSize(ActiveOf(jobs', requester), ActiveOf(jobs, requester));
    }
    forall project: nat
      ensures |ActiveIn(jobs', project)| <= config.maxPerProject
    {
      SubsetSize(ActiveIn(jobs', project), ActiveIn(jobs, project));
    }
  }

  lemma ActiveOfAdded(db: Tables, command: Command, now: int, requester: nat)
    requires db.nextId !in db.jobs
    ensures ActiveOf(AddJob(db, command, now).jobs, requester)
            == ActiveOf(db.jobs, requester) + (if requester == command.idempotency.requester then {db.nextId} else {})
  {
  }

  lemma ActiveInAdded(db: Tables, command: Command, now: int, project: nat)
    requires db.nextId !in db.jobs
    ensures ActiveIn(AddJob(db, command, now).jobs, project)
            == ActiveIn(db.jobs, project) + (if command.project == Some(project) then {db.nextId} else {})
  {
  }

  lemma AdmittedWithinLimits(config: Config, db: Tables, command: Command, now: int)
    requires WithinLimits(config, db.jobs) && FullFor(config, db, command).None? && db.nextId !in db.jobs
    ensures WithinLimits(config, AddJob(db, command, now).jobs)
  {
    var jobs' := AddJob(db, command, now).jobs;
    assert ActiveJobs(jobs') == ActiveJobs(db.jobs) + {db.nextId};
    forall requester: nat
      ensures |ActiveOf(jobs', requester)| <= config.maxPerUser
    {
      ActiveOfAdded(db, command, now, requester);
      OneMore(ActiveOf(db.jobs, requester), db.nextId);
    }
    forall project: nat
      ensures |ActiveIn(jobs', project)| <= config.maxPerProject
    {
      ActiveInAdded(db, command, now, project);
      OneMore(ActiveIn(db.jobs, project), db.nextId);
    }
  }

  lemma OneMore(ids: set<nat>, id: nat)
    ensures |ids + {id}| <= |ids| + 1 && ids + {} == ids
  {
  }

  // ---- notes ----

  lemma {:induction false} RequeuesAppend(notes: seq<Note>, more: seq<Note>, id: nat)
    ensures Requeues(notes + more, id) == Requeues(notes, id) + Requeues(more, id)
    decreases |more|
  {
    if more == [] {
      assert notes + more == notes;
    } else {
      assert (notes + more)[..|notes + more| - 1] == notes + more[..|more| - 1];
      RequeuesAppend(notes, more[..|more| - 1], id);
    }
  }

  lemma {:induction false} RequeuesNoted(ids: set<nat>, below: nat, id: nat)
    ensures Requeues(RequeueNotes(ids, below), id) == if id < below && id in ids then 1 else 0
    decreases below
  {
    if below > 0 {
      RequeuesNoted(ids, below - 1, id);
      if below - 1 in ids {
        var notes := RequeueNotes(ids, below - 1) + [JobRequeued(below - 1)];
        assert notes[..|notes| - 1] == RequeueNotes(ids, below - 1);
      } else {
        assert RequeueNotes(ids, below) == RequeueNotes(ids, below - 1);
      }
    }
  }

  lemma {:induction false} OnlyRequeuesNoted(ids: set<nat>, below: nat)
    ensures forall k :: 0 <= k < |RequeueNotes(ids, below)| ==> RequeueNotes(ids, below)[k].JobRequeued?
    decreases below
  {
    if below > 0 {
      OnlyRequeuesNoted(ids, below - 1);
    }
  }

  // ---- plain steps ----

  lemma PublicationsStay(db: Tables, db': Tables, notes: seq<Note>, more: seq<Note>)
    requires PublicationsFit(db, notes) && db.nextId <= db'.nextId
    requires forall k :: 0 <= k < |more| ==> more[k].JobRequeued?
    requires forall id :: id in db'.jobs && id < db.nextId ==> id in db.jobs && Continues(db.jobs[id], db'.jobs[id])
    requires forall id :: id in db'.jobs && db'.jobs[id].state.Succeeded? ==> id in db.jobs && db.jobs[id].state.Succeeded?
    ensures PublicationsFit(db', notes + more)
  {
    var notes' := notes + more;
    forall k | 0 <= k < |notes'|
      ensures NoteFits(db', notes'[k])
    {
      if k < |notes| {
        assert NoteFits(db, notes[k]);
      }
    }
    forall id | id in db'.jobs && db'.jobs[id].state.Succeeded?
      ensures PublishedIn(notes', id)
    {
      assert PublishedIn(notes, id);
      var k :| 0 <= k < |notes| && notes[k].JobPublished? && notes[k].job == id;
      assert notes'[k] == notes[k];
    }
  }

  lemma RequeuesStay(db: Tables, db': Tables, notes: seq<Note>)
    requires RequeuesFit(db, notes) && db.nextId <= db'.nextId
    requires forall id :: id in db'.jobs ==>
      if id in db.jobs then ClosedAttempts(db.jobs[id]) <= ClosedAttempts(db'.jobs[id])
      else db.nextId <= id && ClosedAttempts(db'.jobs[id]) >= 0
    ensures RequeuesFit(db', notes)
  {
  }

  /** A lost claim counts once, and only while another attempt is left. */
  lemma RequeuesOfMaintenance(config: Config, s: System, batch: set<nat>)
    requires TablesFit(config, s.db) && RequeuesFit(s.db, s.notes)
    requires forall id :: id in batch ==> ClaimExpired(s.db, id, s.now)
    ensures RequeuesFit(Aged(s.db, batch, s.now), s.notes + BatchNotes(s.db, batch, s.now))
  {
    var db' := Aged(s.db, batch, s.now);
    var more := BatchNotes(s.db, batch, s.now);
    AgedTables(s.db, batch, s.now);
    forall id: nat
      ensures Requeues(s.notes + more, id) <= MAX_ATTEMPTS - 1
      ensures id in db'.jobs ==> Requeues(s.notes + more, id) <= ClosedAttempts(db'.jobs[id])
      ensures id >= db'.nextId ==> Requeues(s.notes + more, id) == 0
    {
      RequeuesAppend(s.notes, more, id);
      RequeuesNoted(RequeuedIn(s.db, batch, s.now), s.db.nextId, id);
      if id in s.db.jobs {
        RequeueOfJob(s.db.jobs[id], id in batch, s.now);
        assert Requeues(s.notes, id) <= ClosedAttempts(s.db.jobs[id]);
      }
    }
  }

  lemma RequeueOfJob(job: Job, reclaim: bool, now: int)
    requires JobFits(job)
    ensures ClosedAttempts(job) <= ClosedAttempts(AgedJob(job, reclaim, now))
    ensures reclaim && job.state.Running? && Next(job, ClaimLost, now).state.Queued? ==>
      ClosedAttempts(job) + 1 <= ClosedAttempts(AgedJob(job, reclaim, now)) && ClosedAttempts(job) + 1 <= MAX_ATTEMPTS - 1
  {
  }

  lemma NotesOfTame(config: Config, s: System, a: Action, s': System)
    requires JobsFit(s.db) && TablesFit(config, s.db) && PublicationsFit(s.db, s.notes) && RequeuesFit(s.db, s.notes)
    requires Tame(s.db, s'.db)
    requires a.Maintain? ==>
      && (forall id :: id in a.batch ==> ClaimExpired(s.db, id, s.now))
      && s'.db == Aged(s.db, a.batch, s.now)
      && s'.notes == s.notes + BatchNotes(s.db, a.batch, s.now)
    requires !a.Maintain? ==> s'.notes == s.notes
    ensures PublicationsFit(s'.db, s'.notes) && RequeuesFit(s'.db, s'.notes)
  {
    if a.Maintain? {
      RequeuesOfMaintenance(config, s, a.batch);
      OnlyRequeuesNoted(RequeuedIn(s.db, a.batch, s.now), s.db.nextId);
      PublicationsStay(s.db, s'.db, s.notes, BatchNotes(s.db, a.batch, s.now));
    } else {
      RequeuesStay(s.db, s'.db, s.notes);
      assert s.notes + [] == s.notes;
      PublicationsStay(s.db, s'.db, s.notes, []);
    }
  }

  lemma TameLease(db: Tables, db': Tables, fin: Finalizer)
    requires JobsFit(db) && Tame(db, db') && fin.token < db.nextId
    requires Current(db, fin) ==> SameLease(fin.leased, db.jobs[fin.job])
    ensures Current(db', fin) ==> Current(db, fin) && SameLease(db.jobs[fin.job], db'.jobs[fin.job])
  {
  }

  lemma PlainLeases(config: Config, s: System, a: Action, db': Tables, fin: Finalizer)
    requires TablesFit(config, s.db) && TablesFit(config, db') && Tame(s.db, db') && FinFits(config, s.db, fin)
    ensures FinFits(config, db', fin)
  {
    TameLease(s.db, db', fin);
    FinStays(config, s.db, db', fin);
  }

  // ---- plans ----

  /** Jobs that are still there go on, and so do their rows. */
  ghost predicate GoesOn(db: Tables, db': Tables) {
    && KeepsFiles(db, db')
    && (forall id :: id in db'.jobs && id < db.nextId ==> id in db.jobs && Continues(db.jobs[id], db'.jobs[id]))
  }

  lemma ChosenStays(db: Tables, db': Tables, chosen: set<nat>)
    requires GoesOn(db, db') && ChosenFits(db, chosen)
    ensures ChosenFits(db', chosen)
  {
  }

  lemma HitStays(db: Tables, db': Tables, hit: Hit)
    requires GoesOn(db, db') && HitFits(db, hit)
    ensures HitFits(db', hit)
  {
    if hit.job in db'.jobs && hit.source in db'.jobs {
      var role :| (hit.source, role) in db.artifacts;
      assert (hit.source, role) in db'.artifacts;
    }
  }

  /** Passes and claims under way: the same, one with its choice made, one begun or one gone. */
  lemma PlansApplied(config: Config, s: System, a: Action, s': System)
    requires JobsFit(s.db) && Enabled(config, s, a) && s' == Apply(config, s, a)
    ensures forall p :: p in s'.passes && s'.passes[p].chosen.Some? ==>
      (p in s.passes && s'.passes[p] == s.passes[p])
      || (a.ChooseExpired? && s'.db == s.db && s'.passes[p].chosen.value == DeletableJobs(s.db, s'.passes[p].now))
    ensures forall c :: c in s'.hits ==>
      (c in s.hits && s'.hits[c] == s.hits[c])
      || (a.FindHit? && s'.db == s.db && a.id in s.db.jobs && Reusable(s.db, a.id, a.source, s.now)
          && s'.hits[c] == Hit(a.id, a.source, s.now))
  {
  }

  lemma PlansStay(config: Config, s: System, a: Action, s': System)
    requires JobsFit(s.db) && PlansFit(s) && Enabled(config, s, a) && s' == Apply(config, s, a) && GoesOn(s.db, s'.db)
    ensures PlansFit(s')
  {
    PlansApplied(config, s, a, s');
    forall p | p in s'.passes && s'.passes[p].chosen.Some?
      ensures ChosenFits(s'.db, s'.passes[p].chosen.value)
    {
      if p in s.passes && s'.passes[p] == s.passes[p] {
        ChosenStays(s.db, s'.db, s.passes[p].chosen.value);
      }
    }
    forall c | c in s'.hits
      ensures HitFits(s'.db, s'.hits[c])
    {
      if c in s.hits && s'.hits[c] == s.hits[c] {
        HitStays(s.db, s'.db, s.hits[c]);
      }
    }
  }

  lemma TameGoesOn(db: Tables, db': Tables)
    requires Tame(db, db')
    ensures GoesOn(db, db')
  {
  }

  // ---- leases ----

  function Leased(db: Tables, id: nat, expires: int, now: int): Tables {
    WithJob(db.(nextId := db.nextId + 1), id, LeaseTaken(db.nextId, expires), now)
  }

  lemma AcquireTables(config: Config, db: Tables, db': Tables, id: nat, expires: int, now: int)
    requires TablesFit(config, db) && db' == Leased(db, id, expires, now) && id in db.jobs
    requires db.jobs[id].state.Finalizing? && (db.jobs[id].token.None? || db.jobs[id].tokenExpires <= now)
    ensures TablesFit(config, db') && OnlyGains(db, db') && db'.nextId == db.nextId + 1
    ensures db'.jobs == db.jobs[id := db.jobs[id].(token := Some(db.nextId), tokenExpires := expires, updatedAt := now)]
  {
    NumberTaken(config, db);
    LeasedFits(config, db.(nextId := db.nextId + 1), db', id, LeaseTaken(db.nextId, expires), now);
    LeasedJob(db, id, expires, now);
  }

  lemma LeasedFits(config: Config, db: Tables, db': Tables, id: nat, e: JobEvent, now: int)
    requires TablesFit(config, db) && e.LeaseTaken? && db' == WithJob(db, id, e, now)
    ensures TablesFit(config, db')
  {
    EventAdvances(config, db, id, e, now);
  }

  lemma LeasedJob(db: Tables, id: nat, expires: int, now: int)
    requires id in db.jobs && db.jobs[id].state.Finalizing? && (db.jobs[id].token.None? || db.jobs[id].tokenExpires <= now)
    ensures Leased(db, id, expires, now)
            == db.(nextId := db.nextId + 1,
                   jobs := db.jobs[id := db.jobs[id].(token := Some(db.nextId), tokenExpires := expires, updatedAt := now)])
  {
  }

  lemma AcquireApplied(config: Config, s: System, f: nat, id: nat, lease: nat, s': System)
    requires Enabled(config, s, Acquire(f, id, lease)) && s' == Apply(config, s, Acquire(f, id, lease))
    ensures f !in s.finalizers && id in s.db.jobs && s.db.jobs[id].state.Finalizing?
    ensures s.db.jobs[id].token.None? || s.db.jobs[id].tokenExpires <= s.now
    ensures s'.db == Leased(s.db, id, s.now + lease, s.now) && s'.notes == s.notes
    ensures s'.finalizers == s.finalizers[f := Finalizer(id, s.db.nextId, s.db.jobs[id], None, None)]
  {
  }

  /** A new lease supersedes every older one of its job, and no other. */
  lemma AcquireLeases(config: Config, db: Tables, db': Tables, id: nat, expires: int, now: int, fin: Finalizer)
    requires TablesFit(config, db) && TablesFit(config, db') && OnlyGains(db, db') && id in db.jobs
    requires db'.jobs == db.jobs[id := db.jobs[id].(token := Some(db.nextId), tokenExpires := expires, updatedAt := now)]
    requires FinFits(config, db, fin)
    ensures FinFits(config, db', fin)
    ensures fin.job == id ==> !Current(db', fin)
  {
    GainsKeepFiles(db, db');
    FinStays(config, db, db', fin);
  }

  lemma AcquireFits(config: Config, s: System, f: nat, id: nat, lease: nat, s': System)
    requires SysFits(config, s) && Enabled(config, s, Acquire(f, id, lease)) && s' == Apply(config, s, Acquire(f, id, lease))
    ensures SysFits(config, s')
  {
    AcquireApplied(config, s, f, id, lease, s');
    AcquireTables(config, s.db, s'.db, id, s.now + lease, s.now);
    AcquireGoesOn(s.db, s'.db, id, s.now + lease, s.now);
    PlansStay(config, s, Acquire(f, id, lease), s');
    AcquiredFits(config, s, s', f, id, s.now + lease, s.now);
  }

  lemma AcquireGoesOn(db: Tables, db': Tables, id: nat, expires: int, now: int)
    requires JobsFit(db) && OnlyGains(db, db') && id in db.jobs && db.jobs[id].state.Finalizing?
    requires db'.jobs == db.jobs[id := db.jobs[id].(token := Some(db.nextId), tokenExpires := expires, updatedAt := now)]
    ensures GoesOn(db, db')
  {
    GainsKeepFiles(db, db');
  }

  lemma AcquiredFits(config: Config, s: System, s': System, f: nat, id: nat, expires: int, now: int)
    requires SysFits(config, s) && f !in s.finalizers && id in s.db.jobs && s.db.jobs[id].state.Finalizing?
    requires TablesFit(config, s'.db) && OnlyGains(s.db, s'.db) && s'.db.nextId == s.db.nextId + 1
    requires s'.db.jobs == s.db.jobs[id := s.db.jobs[id].(token := Some(s.db.nextId), tokenExpires := expires, updatedAt := now)]
    requires s'.finalizers == s.finalizers[f := Finalizer(id, s.db.nextId, s.db.jobs[id], None, None)]
    requires s'.notes == s.notes && PlansFit(s')
    ensures SysFits(config, s')
  {
    forall g | g in s'.finalizers
      ensures FinFits(config, s'.db, s'.finalizers[g])
    {
      if g != f {
        assert FinFits(config, s.db, s.finalizers[g]);
        AcquireLeases(config, s.db, s'.db, id, expires, now, s.finalizers[g]);
      }
    }
    FewerActive(config, s.db.jobs, s'.db.jobs);
    assert s.notes + [] == s.notes;
    LeasedNotes(s.db, s'.db, id, s.notes);
  }

  lemma LeasedNotes(db: Tables, db': Tables, id: nat, notes: seq<Note>)
    requires PublicationsFit(db, notes) && RequeuesFit(db, notes) && db.nextId <= db'.nextId
    requires id in db.jobs && id in db'.jobs && db'.jobs == db.jobs[id := db'.jobs[id]]
    requires db.jobs[id].state.Finalizing? && db'.jobs[id].state.Finalizing?
    requires db'.jobs[id].attempts == db.jobs[id].attempts
    ensures PublicationsFit(db', notes) && RequeuesFit(db', notes)
  {
    RequeuesStay(db, db', notes);
    forall k | 0 <= k < |notes|
      ensures NoteFits(db', notes[k])
    {
      assert NoteFits(db, notes[k]);
    }
  }

  // ---- publication ----

  /** While it holds the lease, what the finalizer validated is stored as it was, unless it is gone. */
  lemma LeaseVouches(config: Config, db: Tables, fin: Finalizer, now: int)
    requires FinFits(config, db, fin) && fin.verdict == Some(Publish)
    requires MayPublish(db, fin.job, fin.token, fin.staged.value, now)
    ensures SetOk(config, db.jobs[fin.job].operation, fin.staged.value)
    ensures forall row :: row in fin.staged.value ==> row.blob in db.blobs && db.blobs[row.blob].content == row.content
  {
    assert Current(db, fin);
    forall row | row in fin.staged.value
      ensures row.blob in db.blobs && db.blobs[row.blob].content == row.content
    {
      assert FileKnown(db, row);
    }
  }

  /** As long as the job keeps the link it was leased with, the holder of the lease can publish. */
  lemma LinkedMayPublish(config: Config, db: Tables, fin: Finalizer, now: int)
    requires FinFits(config, db, fin) && fin.staged.Some? && fin.job in db.jobs
    requires HoldsLease(db.jobs[fin.job], fin.token, now) && db.jobs[fin.job].cacheSource == fin.leased.cacheSource
    ensures MayPublish(db, fin.job, fin.token, fin.staged.value, now)
  {
    assert Current(db, fin) && Linked(db, fin);
    forall row | row in fin.staged.value
      ensures row.blob in db.blobs
    {
      assert Backed(db, fin, row);
    }
  }

  lemma PublicationGains(config: Config, db: Tables, fin: Finalizer, project: nat, now: int)
    requires TablesFit(config, db) && FinFits(config, db, fin) && fin.verdict == Some(Publish)
    requires MayPublish(db, fin.job, fin.token, fin.staged.value, now)
    ensures OnlyGains(db, PublishedResult(db, fin.job, fin.token, fin.staged.value, project, now))
  {
    LeaseVouches(config, db, fin, now);
    assert forall role :: (fin.job, role) !in db.artifacts;
    InsertedRows(db.artifacts, fin.job, fin.staged.value);
  }

  lemma PublishTables(config: Config, db: Tables, fin: Finalizer, project: nat, now: int)
    requires TablesFit(config, db) && FinFits(config, db, fin) && fin.verdict == Some(Publish)
    ensures TablesFit(config, PublishedResult(db, fin.job, fin.token, fin.staged.value, project, now))
  {
    if MayPublish(db, fin.job, fin.token, fin.staged.value, now) {
      LeaseVouches(config, db, fin, now);
    }
    PublicationFits(config, db, fin.job, fin.token, fin.staged.value, project, now);
  }

  lemma PublishedNotes(db: Tables, db': Tables, notes: seq<Note>, id: nat, token: nat)
    requires PublicationsFit(db, notes) && RequeuesFit(db, notes) && db'.nextId == db.nextId + 1 && id < db.nextId
    requires id in db.jobs && db.jobs[id].state.Finalizing? && id in db'.jobs && db'.jobs == db.jobs[id := db'.jobs[id]]
    requires db'.jobs[id].state.Succeeded? && db'.jobs[id].attempts == db.jobs[id].attempts
    requires db'.jobs[id].resultProject == if db'.jobs[id].operation.PptxImportTypst? then Some(db.nextId) else None
    ensures PublicationsFit(db', notes + [JobPublished(id, token, db.nextId)])
    ensures RequeuesFit(db', notes + [JobPublished(id, token, db.nextId)])
  {
    var more := [JobPublished(id, token, db.nextId)];
    forall k | 0 <= k < |notes|
      ensures NoteFits(db', notes[k]) && (notes[k].JobPublished? ==> notes[k].job != id && notes[k].project < db.nextId)
    {
      assert NoteFits(db, notes[k]);
    }
    forall i | i in db'.jobs && db'.jobs[i].state.Succeeded?
      ensures PublishedIn(notes + more, i)
    {
      if i == id {
        assert (notes + more)[|notes|] == more[0];
      } else {
        assert PublishedIn(notes, i);
        var k :| 0 <= k < |notes| && notes[k].JobPublished? && notes[k].job == i;
        assert (notes + more)[k] == notes[k];
      }
    }
    forall i: nat
      ensures Requeues(notes + more, i) == Requeues(notes, i)
    {
      RequeuesAppend(notes, more, i);
      assert more[..0] == [];
    }
    RequeuesStay(db, db', notes);
  }
}
