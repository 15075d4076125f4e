/** Which delivered results can still be published after a maintenance pass, over all runs
  (backend/src/document_processing/finalization.rs). */
module ProcessingRefusals {
  import opened Wrappers
  import opened ProcessingModel
  import opened ProcessingTables
  import opened ProcessingResults
  import opened ProcessingInvariant
  import opened ProcessingFinalizers
  import opened ProcessingRuns
  import opened ProcessingSteps
  import opened ProcessingProofs
  import opened ProcessingTheorems
  import opened ProcessingExpiry

  // ---- nothing brings an expired file back ----

  /** No uploaded file of the attempt has the role. */
  predicate NoFile(db: Tables, id: nat, attempt: nat, role: string) {
    forall t :: t in db.transfers ==>
      var transfer := db.transfers[t];
      !(transfer.job == id && transfer.attempt == attempt && transfer.upload && transfer.state.Uploaded?
        && transfer.blob.Some? && transfer.role == role)
  }

  /** Nobody who may still publish the job has loaded a file of the role. */
  predicate NotLoaded(s: System, id: nat, role: string) {
    forall f :: f in s.finalizers && s.finalizers[f].job == id && Current(s.db, s.finalizers[f])
                && s.finalizers[f].staged.Some? ==>
      !HasRole(s.finalizers[f].staged.value, role)
  }

  /** A finalizing job without a file of a required role, or one that came to another end than success. */
  predicate Lost(s: System, id: nat, role: string) {
    && id < s.db.nextId && NotLoaded(s, id, role)
    && (id in s.db.jobs ==>
          var job := s.db.jobs[id];
          && RequiredRole(job.operation, role)
          && ((Terminal(job.state) && !job.state.Succeeded?)
              || (job.state.Finalizing? && job.cacheSource.None? && NoFile(s.db, id, job.attempts, role))))
  }

  /** A finalizing job gets no new uploaded file. */
  lemma NoLateUpload(config: Config, s: System, a: Action, s': System, id: nat)
    requires Enabled(config, s, a) && s' == Apply(config, s, a) && id in s.db.jobs && s.db.jobs[id].state.Finalizing?
    ensures forall t :: t in s'.db.transfers && s'.db.transfers[t].job == id && s'.db.transfers[t].state.Uploaded? ==>
      t in s.db.transfers && s.db.transfers[t] == s'.db.transfers[t]
  {
    if a.Maintain? {
      NoUploadByAging(s.db, a.batch, s.now);
    } else if a.DeleteExpired? {
      RemovedRows(s.db, Removed(s.db, s.passes[a.p].chosen.value), s.passes[a.p].chosen.value);
    }
  }

  lemma NoUploadByAging(db: Tables, batch: set<nat>, now: int)
    ensures var aged := Aged(db, batch, now);
            forall t :: t in aged.transfers && aged.transfers[t].state.Uploaded? ==>
              t in db.transfers && db.transfers[t] == aged.transfers[t]
  {
    AgedTables(db, batch, now);
    forall t | t in db.transfers
      ensures Aged(db, batch, now).transfers[t].state.Uploaded? ==> Aged(db, batch, now).transfers[t] == db.transfers[t]
    {
      AgedTransfer(db, batch, now, t);
    }
  }

  lemma FileStaysLost(config: Config, s: System, a: Action, s': System, id: nat, attempt: nat, role: string)
    requires Enabled(config, s, a) && s' == Apply(config, s, a) && id in s.db.jobs && s.db.jobs[id].state.Finalizing?
    requires NoFile(s.db, id, attempt, role)
    ensures NoFile(s'.db, id, attempt, role)
  {
    NoLateUpload(config, s, a, s', id);
  }

  lemma NothingToLoad(db: Tables, id: nat, token: nat, source: Option<nat>, staged: seq<StagedArtifact>, role: string)
    requires id in db.jobs && db.jobs[id].cacheSource.None? && NoFile(db, id, db.jobs[id].attempts, role)
    requires Loaded(db, id, token, source, staged)
    ensures !HasRole(staged, role)
  {
    forall i | 0 <= i < |staged|
      ensures staged[i].role != role
    {
      assert staged[i] in staged;
      assert IsStaged(db, id, token, source, staged[i]);
    }
  }

  lemma PlainNotLoaded(config: Config, s: System, s': System, id: nat, role: string)
    requires SysFits(config, s) && Tame(s.db, s'.db) && PlainFinalizers(config, s, s') && NotLoaded(s, id, role)
    requires id in s.db.jobs && s.db.jobs[id].cacheSource.None? && NoFile(s.db, id, s.db.jobs[id].attempts, role)
    ensures NotLoaded(s', id, role)
  {
    forall f | f in s'.finalizers && s'.finalizers[f].job == id && Current(s'.db, s'.finalizers[f]) && s'.finalizers[f].staged.Some?
      ensures !HasRole(s'.finalizers[f].staged.value, role)
    {
      var fin := s.finalizers[f];
      assert FinFits(config, s.db, fin);
      TameLease(s.db, s'.db, fin);
      if fin.staged.None? {
        NothingToLoad(s.db, id, fin.token, fin.leased.cacheSource, s'.finalizers[f].staged.value, role);
      }
    }
  }

  lemma AcquireNotLoaded(config: Config, s: System, a: Action, s': System, id: nat, role: string)
    requires SysFits(config, s) && a.Acquire? && Enabled(config, s, a) && s' == Apply(config, s, a) && NotLoaded(s, id, role)
    ensures NotLoaded(s', id, role)
    ensures id in s.db.jobs && s.db.jobs[id].state.Finalizing? ==> id in s'.db.jobs && s'.db.jobs[id].state.Finalizing?
  {
    LeaseApplied(config, s, a.f, a.id, a.lease, s');
    forall f | f in s'.finalizers && s'.finalizers[f].job == id && Current(s'.db, s'.finalizers[f]) && s'.finalizers[f].staged.Some?
      ensures !HasRole(s'.finalizers[f].staged.value, role)
    {
      assert f != a.f;
      assert FinFits(config, s.db, s.finalizers[f]);
      StillCurrent(s.db, s'.db, a.id, s.finalizers[f]);
    }
  }

  /** A new lease makes no older token current. */
  lemma StillCurrent(db: Tables, db': Tables, id: nat, fin: Finalizer)
    requires id in db.jobs && id in db'.jobs && db'.jobs == db.jobs[id := db'.jobs[id]]
    requires db'.jobs[id].token == Some(db.nextId) && fin.token < db.nextId && Current(db', fin)
    ensures Current(db, fin)
  {
  }

  /** A finalizer that lacks a required role was not told to publish. */
  lemma NotThisOne(config: Config, s: System, f: nat, id: nat, role: string)
    requires SysFits(config, s) && f in s.finalizers && s.finalizers[f].verdict == Some(Publish)
    requires s.finalizers[f].staged.Some? && Publishes(s.db, s.finalizers[f], s.now) && NotLoaded(s, id, role)
    requires id in s.db.jobs && RequiredRole(s.db.jobs[id].operation, role)
    ensures s.finalizers[f].job != id
  {
    var fin := s.finalizers[f];
    assert FinFits(config, s.db, fin);
  }

  lemma PublishNotLoaded(config: Config, s: System, f: nat, s': System, id: nat, role: string)
    requires SysFits(config, s) && Enabled(config, s, Finish(f)) && s.finalizers[f].verdict == Some(Publish)
    requires s' == Apply(config, s, Finish(f)) && NotLoaded(s, id, role)
    requires id in s.db.jobs && s.db.jobs[id].state.Finalizing? && RequiredRole(s.db.jobs[id].operation, role)
    ensures NotLoaded(s', id, role)
    ensures id in s'.db.jobs && s'.db.jobs[id] == s.db.jobs[id]
  {
    PublishApplied(config, s, f, s');
    AfterPublishJobs(s.db, s'.db, s.finalizers[f], s.now);
    if Publishes(s.db, s.finalizers[f], s.now) {
      NotThisOne(config, s, f, id, role);
    }
  }

  lemma FinalizingStaysLost(config: Config, s: System, a: Action, s': System, id: nat, role: string)
    requires SysFits(config, s) && Enabled(config, s, a) && s' == Apply(config, s, a)
    requires Lost(s, id, role) && id in s.db.jobs && s.db.jobs[id].state.Finalizing?
    ensures NotLoaded(s', id, role)
    ensures id in s'.db.jobs && !s'.db.jobs[id].state.Succeeded?
  {
    if a.Acquire? {
      AcquireNotLoaded(config, s, a, s', id, role);
    } else if Plain(s, a) {
      PlainStaysLost(config, s, a, s', id, role);
    } else {
      PublishNotLoaded(config, s, a.f, s', id, role);
    }
  }

  lemma PlainStaysLost(config: Config, s: System, a: Action, s': System, id: nat, role: string)
    requires SysFits(config, s) && Enabled(config, s, a) && Plain(s, a) && s' == Apply(config, s, a) && NotLoaded(s, id, role)
    requires id in s.db.jobs && s.db.jobs[id].state.Finalizing? && s.db.jobs[id].cacheSource.None?
    requires NoFile(s.db, id, s.db.jobs[id].attempts, role)
    ensures NotLoaded(s', id, role)
    ensures id in s'.db.jobs && !s'.db.jobs[id].state.Succeeded?
  {
    StepTame(config, s, a);
    PlainApplied(config, s, a, s');
    PlainNotLoaded(config, s, s', id, role);
  }

  /** Only a finalizing job has a current finalizer. */
  lemma EndedIsNotLoaded(s: System, id: nat, role: string)
    requires id in s.db.jobs ==> !s.db.jobs[id].state.Finalizing?
    ensures NotLoaded(s, id, role)
  {
  }

  lemma LostStep(config: Config, s: System, a: Action, s': System, id: nat, role: string)
    requires SysFits(config, s) && Enabled(config, s, a) && s' == Apply(config, s, a) && Lost(s, id, role)
    ensures Lost(s', id, role)
  {
    StepContinues(config, s, a, s');
    if id in s.db.jobs && s.db.jobs[id].state.Finalizing? {
      FinalizingStaysLost(config, s, a, s', id, role);
      FileStaysLost(config, s, a, s', id, s.db.jobs[id].attempts, role);
    } else {
      EndedIsNotLoaded(s', id, role);
    }
  }

  lemma {:induction false} LostForGood(config: Config, s: System, actions: seq<Action>, end: System, id: nat, role: string)
    requires SysFits(config, s) && Run(config, s, actions, end) && Lost(s, id, role)
    ensures Lost(end, id, role)
    decreases |actions|
  {
    if actions != [] {
      var s' := Apply(config, s, actions[0]);
      StepFits(config, s, actions[0], s');
      LostStep(config, s, actions[0], s', id, role);
      LostForGood(config, s', actions[1..], end, id, role);
    }
  }

  // ---- a finalizer from lease to end ----

  /** The job after a finalizer that held its lease throughout. */
  predicate Concluded(db: Tables, id: nat, verdict: Verdict) {
    && id in db.jobs
    && match verdict
       case Publish => db.jobs[id].state.Succeeded?
       case Refuse(_) => db.jobs[id].state.Failed?
       case RetryLater => db.jobs[id].state.Finalizing?
  }

  function Conclusion(f: nat, id: nat, lease: nat, staged: seq<StagedArtifact>, access: Access): seq<Action> {
    [Acquire(f, id, lease), Load(f, staged), Validate(f, access), Finish(f)]
  }

  /** A job free to lease, whose delivery is `staged`. */
  ghost predicate Ready(s: System, id: nat, staged: seq<StagedArtifact>) {
    && id in s.db.jobs && s.db.jobs[id].state.Finalizing? && s.db.jobs[id].cacheSource.None?
    && (s.db.jobs[id].token.None? || s.db.jobs[id].tokenExpires <= s.now)
    && Delivery(s.db, id, staged)
  }

  lemma LeaseApplied(config: Config, s: System, f: nat, id: nat, lease: nat, leased: System)
    requires f !in s.finalizers && id in s.db.jobs && s.db.jobs[id].state.Finalizing?
    requires s.db.jobs[id].token.None? || s.db.jobs[id].tokenExpires <= s.now
    requires leased == Apply(config, s, Acquire(f, id, lease))
    ensures leased == s.(db := s.db.(nextId := s.db.nextId + 1, jobs := s.db.jobs[id := leased.db.jobs[id]]),
                         finalizers := s.finalizers[f := Finalizer(id, s.db.nextId, s.db.jobs[id], None, None)])
    ensures leased.db.jobs[id] == s.db.jobs[id].(token := Some(s.db.nextId), tokenExpires := s.now + lease, updatedAt := s.now)
  {
    LeasedJob(s.db, id, s.now + lease, s.now);
  }

  /** A delivery is what the new lease loads. */
  lemma LeaseLoads(db: Tables, db': Tables, id: nat, staged: seq<StagedArtifact>)
    requires id in db.jobs && Delivery(db, id, staged) && id in db'.jobs && db'.jobs[id].attempts == db.jobs[id].attempts
    requires db'.transfers == db.transfers && db'.blobs == db.blobs && db'.delivered == db.delivered
    requires db'.jobs[id].state.Finalizing? && db'.jobs[id].token == Some(db.nextId)
    ensures Loaded(db', id, db.nextId, None, staged) && FilesStored(db', staged)
  {
    SameFiles(db, db', id, staged);
    LoadedIsDelivery(db', id, db.nextId, staged);
  }

  lemma JudgedIsFinished(config: Config, s: System, f: nat, end: System)
    requires f in s.finalizers && s.finalizers[f].staged.Some? && s.finalizers[f].verdict.Some?
    requires Holds(s.db, s.finalizers[f], s.now) && FilesStored(s.db, s.finalizers[f].staged.value)
    requires end == Apply(config, s, Finish(f))
    ensures Concluded(end.db, s.finalizers[f].job, s.finalizers[f].verdict.value)
    ensures NothingElse(s, end)
  {
    if s.finalizers[f].verdict.value.Publish? {
      PublishApplied(config, s, f, end);
      AfterPublishJobs(s.db, end.db, s.finalizers[f], s.now);
    }
  }

  /** The clock and what is under way are as before, and no job came or went. */
  predicate NothingElse(s: System, s': System) {
    s'.now == s.now && s'.passes == s.passes && s'.hits == s.hits && s'.db.jobs.Keys == s.db.jobs.Keys
  }

  lemma FinalizerRuns(config: Config, s: System, f: nat, id: nat, lease: nat, staged: seq<StagedArtifact>, access: Access)
      returns (end: System)
    requires f !in s.finalizers && Ready(s, id, staged) && lease > 0
    ensures Run(config, s, Conclusion(f, id, lease, staged, access), end)
    ensures Concluded(end.db, id, Judged(config, s.db.jobs[id], staged, access))
    ensures NothingElse(s, end)
  {
    var leased := Apply(config, s, Acquire(f, id, lease));
    LeaseApplied(config, s, f, id, lease, leased);
    LeaseLoads(s.db, leased.db, id, staged);
    end := LeasedRuns(config, leased, f, staged, access);
    OneMoreStep(config, s, Acquire(f, id, lease), [Load(f, staged), Validate(f, access), Finish(f)], end);
  }

  lemma LeasedRuns(config: Config, leased: System, f: nat, staged: seq<StagedArtifact>, access: Access) returns (end: System)
    requires f in leased.finalizers && leased.finalizers[f].staged.None? && leased.finalizers[f].verdict.None?
    requires leased.finalizers[f].leased.cacheSource.None? && Holds(leased.db, leased.finalizers[f], leased.now)
    requires Loaded(leased.db, leased.finalizers[f].job, leased.finalizers[f].token, None, staged)
    requires FilesStored(leased.db, staged)
    ensures Run(config, leased, [Load(f, staged), Validate(f, access), Finish(f)], end)
    ensures Concluded(end.db, leased.finalizers[f].job, Judged(config, leased.finalizers[f].leased, staged, access))
    ensures NothingElse(leased, end)
  {
    var loaded := Apply(config, leased, Load(f, staged));
    var judged := Apply(config, loaded, Validate(f, access));
    end := Apply(config, judged, Finish(f));
    JudgedIsFinished(config, judged, f, end);
    ThreeSteps(config, leased, Load(f, staged), loaded, Validate(f, access), judged, Finish(f), end);
  }

  lemma ThreeSteps(config: Config, s: System, a: Action, s1: System, b: Action, s2: System, c: Action, s3: System)
    requires Enabled(config, s, a) && s1 == Apply(config, s, a)
    requires Enabled(config, s1, b) && s2 == Apply(config, s1, b)
    requires Enabled(config, s2, c) && s3 == Apply(config, s2, c)
    ensures Run(config, s, [a, b, c], s3)
  {
    assert Run(config, s3, [], s3);
    assert [c][1..] == [] && [b, c][1..] == [c] && [a, b, c][1..] == [b, c];
    assert Run(config, s2, [c], s3);
    assert Run(config, s1, [b, c], s3);
  }

  lemma OneMoreStep(config: Config, s: System, a: Action, rest: seq<Action>, end: System)
    requires Enabled(config, s, a) && Run(config, Apply(config, s, a), rest, end)
    ensures Run(config, s, [a] + rest, end)
  {
    assert ([a] + rest)[1..] == rest;
  }

  // ---- the exact condition ----

  lemma {:induction false} FreshNumber(taken: set<nat>) returns (f: nat)
    ensures forall n :: n in taken ==> n < f
    decreases taken
  {
    if taken == {} {
      return 0;
    }
    var n :| n in taken;
    var rest := FreshNumber(taken - {n});
    f := if n < rest then rest else n + 1;
    assert forall k :: k in taken ==> k == n || k in taken - {n};
  }

  lemma {:induction false} RowsExist(db: Tables, id: nat, files: set<nat>) returns (staged: seq<StagedArtifact>)
    requires id in db.jobs && forall t :: t in files ==> DeliveredFile(db, id, t)
    ensures forall row :: row in staged <==> row.transfer.Some? && row.transfer.value in files && row == RowOf(db, id, row.transfer.value)
    ensures forall i, j :: 0 <= i < j < |staged| ==> staged[i] != staged[j]
    decreases files
  {
    if files == {} {
      return [];
    }
    var t :| t in files;
    var rest := RowsExist(db, id, files - {t});
    staged := [RowOf(db, id, t)] + rest;
    assert forall row :: row in staged <==> row in rest || row == RowOf(db, id, t);
    assert RowOf(db, id, t) !in rest;
    assert forall i :: 0 < i < |staged| ==> staged[i] == rest[i - 1] && staged[i] in rest;
  }

  lemma DeliveryExists(db: Tables, id: nat) returns (staged: seq<StagedArtifact>)
    requires id in db.jobs
    ensures Delivery(db, id, staged)
  {
    var files := set t | t in db.transfers && DeliveredFile(db, id, t);
    staged := RowsExist(db, id, files);
    forall t | DeliveredFile(db, id, t)
      ensures RowOf(db, id, t) in staged
    {
      assert t in files;
    }
  }

  /** Some continuation publishes the job. */
  ghost predicate CanBePublished(config: Config, s: System, id: nat) {
    exists actions, end :: Run(config, s, actions, end) && id in end.db.jobs && end.db.jobs[id].state.Succeeded?
  }

  /** Any delivery can be taken to its end, once the lease in force, if any, has run out. */
  lemma DeliveryConcludes(config: Config, s: System, id: nat, staged: seq<StagedArtifact>, access: Access)
      returns (actions: seq<Action>, end: System)
    requires id in s.db.jobs && s.db.jobs[id].state.Finalizing? && s.db.jobs[id].cacheSource.None?
    requires Delivery(s.db, id, staged)
    ensures Run(config, s, actions, end) && Concluded(end.db, id, Judged(config, s.db.jobs[id], staged, access))
  {
    var wait: nat := if s.db.jobs[id].tokenExpires <= s.now then 0 else s.db.jobs[id].tokenExpires - s.now;
    var f := FreshNumber(s.finalizers.Keys);
    var rest := Conclusion(f, id, 1, staged, access);
    end := FinalizerRuns(config, s.(now := s.now + wait), f, id, 1, staged, access);
    WaitThen(config, s, wait, rest, end);
    actions := [Tick(wait)] + rest;
  }

  lemma WaitThen(config: Config, s: System, wait: nat, rest: seq<Action>, end: System)
    requires Run(config, s.(now := s.now + wait), rest, end)
    ensures Run(config, s, [Tick(wait)] + rest, end)
  {
    OneMoreStep(config, s, Tick(wait), rest, end);
  }

  lemma GoodDeliveryCanBePublished(config: Config, s: System, id: nat, staged: seq<StagedArtifact>, access: Access)
    requires id in s.db.jobs && s.db.jobs[id].state.Finalizing? && s.db.jobs[id].cacheSource.None?
    requires Delivery(s.db, id, staged) && Judged(config, s.db.jobs[id], staged, access) == Publish
    ensures CanBePublished(config, s, id)
  {
    var actions, end := DeliveryConcludes(config, s, id, staged, access);
  }

  /** A required file whose deadline has passed is the only one of its role. */
  lemma LostFile(config: Config, db: Tables, db': Tables, batch: set<nat>, now: int, id: nat, t: nat, staged: seq<StagedArtifact>)
    requires TablesFit(config, db) && id in db.jobs && db.jobs[id].state.Finalizing? && db' == Aged(db, batch, now)
    requires Delivery(db, id, staged) && SetOk(config, db.jobs[id].operation, staged)
    requires DeliveredFile(db, id, t) && db.transfers[t].expires <= now
    ensures id in db'.jobs && db'.jobs[id] == db.jobs[id]
    ensures NoFile(db', id, db.jobs[id].attempts, db.transfers[t].role)
  {
    DeliveredLater(config, db, batch, now, id, t);
    FinalizingKept(config, db, batch, now, id);
    AgedFits(config, db, batch, now);
    forall u | u in db'.transfers && db'.transfers[u].job == id && db'.transfers[u].attempt == db.jobs[id].attempts
               && db'.transfers[u].upload && db'.transfers[u].state.Uploaded? && db'.transfers[u].blob.Some?
      ensures db'.transfers[u].role != db.transfers[t].role
    {
      assert TransferFits(db', db'.transfers[u]);
      DeliveredLater(config, db, batch, now, id, u);
      if db'.transfers[u].role == db.transfers[t].role {
        RowByRole(staged, RowOf(db, id, t), RowOf(db, id, u));
        assert false;
      }
    }
  }

  /** Nobody who may still publish the job has loaded its result yet. */
  predicate NobodyLoaded(s: System, id: nat) {
    forall f :: f in s.finalizers && s.finalizers[f].job == id && Current(s.db, s.finalizers[f]) ==>
      s.finalizers[f].staged.None?
  }

  /** The exact condition over all runs: a delivered result that would have been published before a
    maintenance pass, and that nobody has loaded yet, can be published in some continuation if and
    only if the transfer deadline of each of its required files was still ahead. */
  lemma PublishableAfterMaintenance(config: Config, start: System, before: seq<Action>, s: System, p: nat, batch: set<nat>,
                                    id: nat, staged: seq<StagedArtifact>, access: Access)
    requires Initial(start) && Run(config, start, before, s) && Enabled(config, s, Maintain(p, batch))
    requires id in s.db.jobs && s.db.jobs[id].state.Finalizing? && s.db.jobs[id].cacheSource.None?
    requires Delivery(s.db, id, staged) && Judged(config, s.db.jobs[id], staged, access) == Publish && NobodyLoaded(s, id)
    ensures CanBePublished(config, Apply(config, s, Maintain(p, batch)), id) <==> RequiredFilesLast(s.db, id, s.now)
  {
    ReachableFits(config, start, before, s);
    var s' := Apply(config, s, Maintain(p, batch));
    StepFits(config, s, Maintain(p, batch), s');
    if RequiredFilesLast(s.db, id, s.now) {
      LastingIsPublished(config, s, batch, s', id, staged, access);
    } else {
      ExpiredIsNeverPublished(config, s, batch, s', id, staged);
    }
  }

  lemma LastingIsPublished(config: Config, s: System, batch: set<nat>, s': System, id: nat, staged: seq<StagedArtifact>,
                           access: Access)
    requires SysFits(config, s) && SysFits(config, s') && s'.db == Aged(s.db, batch, s.now)
    requires id in s.db.jobs && s.db.jobs[id].state.Finalizing? && s.db.jobs[id].cacheSource.None?
    requires Delivery(s.db, id, staged) && Judged(config, s.db.jobs[id], staged, access) == Publish
    requires RequiredFilesLast(s.db, id, s.now)
    ensures CanBePublished(config, s', id)
  {
    FinalizingKept(config, s.db, batch, s.now, id);
    var after := DeliveryExists(s'.db, id);
    DeliveryAfterAging(config, s.db, batch, s.now, id, staged, after, access);
    GoodDeliveryCanBePublished(config, s', id, after, access);
  }

  lemma ExpiredIsNeverPublished(config: Config, s: System, batch: set<nat>, s': System, id: nat, staged: seq<StagedArtifact>)
    requires SysFits(config, s) && SysFits(config, s') && s'.db == Aged(s.db, batch, s.now) && s'.finalizers == s.finalizers
    requires id in s.db.jobs && s.db.jobs[id].state.Finalizing? && s.db.jobs[id].cacheSource.None? && NobodyLoaded(s, id)
    requires Delivery(s.db, id, staged) && SetOk(config, s.db.jobs[id].operation, staged)
    requires !RequiredFilesLast(s.db, id, s.now)
    ensures !CanBePublished(config, s', id)
  {
    var t :| DeliveredFile(s.db, id, t) && RequiredRole(s.db.jobs[id].operation, s.db.transfers[t].role)
             && s.db.transfers[t].expires <= s.now;
    ExpiredIsLost(config, s, batch, s', id, t, staged);
    forall actions, end | Run(config, s', actions, end)
      ensures !(id in end.db.jobs && end.db.jobs[id].state.Succeeded?)
    {
      LostForGood(config, s', actions, end, id, s.db.transfers[t].role);
    }
  }

  lemma ExpiredIsLost(config: Config, s: System, batch: set<nat>, s': System, id: nat, t: nat, staged: seq<StagedArtifact>)
    requires SysFits(config, s) && SysFits(config, s') && s'.db == Aged(s.db, batch, s.now) && s'.finalizers == s.finalizers
    requires id in s.db.jobs && s.db.jobs[id].state.Finalizing? && s.db.jobs[id].cacheSource.None? && NobodyLoaded(s, id)
    requires Delivery(s.db, id, staged) && SetOk(config, s.db.jobs[id].operation, staged)
    requires DeliveredFile(s.db, id, t) && RequiredRole(s.db.jobs[id].operation, s.db.transfers[t].role)
    requires s.db.transfers[t].expires <= s.now
    ensures Lost(s', id, s.db.transfers[t].role)
  {
    LostFile(config, s.db, s'.db, batch, s.now, id, t, staged);
  }
}
