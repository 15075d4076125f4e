/** What holds in every run of document processing. */
module ProcessingTheorems {
  import opened Wrappers
  import opened ProcessingModel
  import opened ProcessingTables
  import opened ProcessingResults
  import opened ProcessingInvariant
  import opened ProcessingFinalizers
  import opened ProcessingRuns
  import opened ProcessingSteps
  import opened ProcessingProofs

  // ---- finalizer steps ----

  /** What is loaded under a current lease is backed by rows that stay. */
  lemma LoadedIsBacked(config: Config, db: Tables, fin: Finalizer, staged: seq<StagedArtifact>)
    requires FinFits(config, db, fin) && RowsFit(db) && fin.staged.None?
    requires Loaded(db, fin.job, fin.token, fin.leased.cacheSource, staged)
    ensures FinFits(config, db, fin.(staged := Some(staged)))
  {
    var fin' := fin.(staged := Some(staged));
    forall row | row in staged
      ensures FileKnown(db, row) && Backed(db, fin', row)
    {
      assert IsStaged(db, fin.job, fin.token, fin.leased.cacheSource, row);
    }
  }

  lemma JudgedFits(config: Config, db: Tables, fin: Finalizer, access: Access)
    requires FinFits(config, db, fin) && fin.staged.Some?
    ensures FinFits(config, db, fin.(verdict := Some(Judged(config, fin.leased, fin.staged.value, access))))
  {
    var fin' := fin.(verdict := Some(Judged(config, fin.leased, fin.staged.value, access)));
    if Current(db, fin') && Linked(db, fin') {
      assert Linked(db, fin);
      forall row | row in fin.staged.value
        ensures Backed(db, fin', row)
      {
        assert Backed(db, fin, row);
      }
    }
  }

  lemma PublishedJob(db: Tables, fin: Finalizer, project: nat, now: int)
    requires fin.staged.Some? && MayPublish(db, fin.job, fin.token, fin.staged.value, now)
    ensures var db' := PublishedResult(db, fin.job, fin.token, fin.staged.value, project, now);
            && db'.jobs == db.jobs[fin.job := db'.jobs[fin.job]] && db'.nextId == db.nextId
            && db'.jobs[fin.job].state.Succeeded? && db'.jobs[fin.job].attempts == db.jobs[fin.job].attempts
            && Continues(db.jobs[fin.job], db'.jobs[fin.job])
            && db'.jobs[fin.job].resultProject
               == (if db'.jobs[fin.job].operation.PptxImportTypst? then Some(project) else None)
  {
  }

  predicate Holds(db: Tables, fin: Finalizer, now: int) {
    fin.job in db.jobs && HoldsLease(db.jobs[fin.job], fin.token, now)
  }

  predicate Publishes(db: Tables, fin: Finalizer, now: int)
    requires fin.staged.Some?
  {
    MayPublish(db, fin.job, fin.token, fin.staged.value, now)
  }

  /** The tables after a publication attempt: with or without the lease and the files. */
  function AfterPublish(db: Tables, fin: Finalizer, now: int): Tables
    requires fin.staged.Some?
  {
    PublishedResult(db, fin.job, fin.token, fin.staged.value, db.nextId, now).(nextId := db.nextId + 1)
  }

  lemma AfterPublishGains(config: Config, db: Tables, db': Tables, fin: Finalizer, now: int)
    requires TablesFit(config, db) && FinFits(config, db, fin) && fin.verdict == Some(Publish)
    requires db' == AfterPublish(db, fin, now)
    ensures OnlyGains(db, db')
  {
    if Publishes(db, fin, now) {
      PublicationGains(config, db, fin, db.nextId, now);
    }
  }

  lemma AfterPublishTables(config: Config, db: Tables, db': Tables, fin: Finalizer, now: int)
    requires TablesFit(config, db) && FinFits(config, db, fin) && fin.verdict == Some(Publish)
    requires db' == AfterPublish(db, fin, now)
    ensures TablesFit(config, db') && OnlyGains(db, db')
  {
    AfterPublishGains(config, db, db', fin, now);
    PublishTables(config, db, fin, db.nextId, now);
    AfterPublishNumber(db, db', fin, now);
    NumberedFits(config, PublishedResult(db, fin.job, fin.token, fin.staged.value, db.nextId, now), db');
  }

  lemma AfterPublishNumber(db: Tables, db': Tables, fin: Finalizer, now: int)
    requires fin.staged.Some? && db' == AfterPublish(db, fin, now)
    ensures var published := PublishedResult(db, fin.job, fin.token, fin.staged.value, db.nextId, now);
            db' == published.(nextId := published.nextId + 1)
  {
  }

  lemma NumberedFits(config: Config, db: Tables, db': Tables)
    requires TablesFit(config, db) && db' == db.(nextId := db.nextId + 1)
    ensures TablesFit(config, db')
  {
    NumberTaken(config, db);
  }

  lemma OtherLeases(config: Config, db: Tables, db': Tables, id: nat, other: Finalizer)
    requires TablesFit(config, db') && OnlyGains(db, db') && FinFits(config, db, other)
    requires db'.jobs == db.jobs || (id in db.jobs && id in db'.jobs && db'.jobs == db.jobs[id := db'.jobs[id]]
                                     && db'.jobs[id].state.Succeeded?)
    ensures FinFits(config, db', other)
  {
    GainsKeepFiles(db, db');
    FinStays(config, db, db', other);
  }

  /** The notes after a publication attempt. */
  function NotesAfter(db: Tables, notes: seq<Note>, fin: Finalizer, now: int): seq<Note>
    requires fin.staged.Some?
  {
    if Publishes(db, fin, now) then notes + [JobPublished(fin.job, fin.token, db.nextId)] else notes
  }

  lemma AfterPublishJobs(db: Tables, db': Tables, fin: Finalizer, now: int)
    requires fin.staged.Some? && db' == AfterPublish(db, fin, now)
    ensures db'.nextId == db.nextId + 1
    ensures !Publishes(db, fin, now) ==> db'.jobs == db.jobs
    ensures Publishes(db, fin, now) ==>
      && fin.job in db'.jobs && db'.jobs == db.jobs[fin.job := db'.jobs[fin.job]]
      && db'.jobs[fin.job].state.Succeeded? && db'.jobs[fin.job].attempts == db.jobs[fin.job].attempts
      && db'.jobs[fin.job].resultProject
         == (if db'.jobs[fin.job].operation.PptxImportTypst? then Some(db.nextId) else None)
  {
    if Publishes(db, fin, now) {
      PublishedJob(db, fin, db.nextId, now);
    }
  }

  lemma PublishNotes(db: Tables, db': Tables, notes: seq<Note>, fin: Finalizer, now: int)
    requires JobsFit(db) && PublicationsFit(db, notes) && RequeuesFit(db, notes)
    requires fin.staged.Some? && db' == AfterPublish(db, fin, now)
    ensures PublicationsFit(db', NotesAfter(db, notes, fin, now)) && RequeuesFit(db', NotesAfter(db, notes, fin, now))
  {
    AfterPublishJobs(db, db', fin, now);
    if Publishes(db, fin, now) {
      PublishedNotes(db, db', notes, fin.job, fin.token);
    } else {
      RequeuesStay(db, db', notes);
      assert notes + [] == notes;
      PublicationsStay(db, db', notes, []);
    }
  }

  lemma PublishFits(config: Config, s: System, f: nat, s': System)
    requires SysFits(config, s) && f in s.finalizers && s.finalizers[f].verdict == Some(Publish)
    requires s.finalizers[f].staged.Some? && s'.db == AfterPublish(s.db, s.finalizers[f], s.now)
    requires s'.finalizers == s.finalizers - {f}
    requires s'.notes == NotesAfter(s.db, s.notes, s.finalizers[f], s.now) && PlansFit(s')
    requires TablesFit(config, s'.db) && OnlyGains(s.db, s'.db)
    ensures SysFits(config, s')
  {
    var fin := s.finalizers[f];
    AfterPublishJobs(s.db, s'.db, fin, s.now);
    PublishNotes(s.db, s'.db, s.notes, fin, s.now);
    forall g | g in s'.finalizers
      ensures FinFits(config, s'.db, s'.finalizers[g])
    {
      assert FinFits(config, s.db, s.finalizers[g]);
      OtherLeases(config, s.db, s'.db, fin.job, s.finalizers[g]);
    }
    PublishLimits(config, s.db, s'.db, fin, s.now);
  }

  lemma PublishLimits(config: Config, db: Tables, db': Tables, fin: Finalizer, now: int)
    requires WithinLimits(config, db.jobs) && fin.staged.Some? && db' == AfterPublish(db, fin, now)
    ensures WithinLimits(config, db'.jobs)
  {
    AfterPublishJobs(db, db', fin, now);
    FewerActive(config, db.jobs, db'.jobs);
  }

  // ---- every step ----

  /** Finalizers of a plain step: the same, one loaded or judged, or one gone. */
  ghost predicate PlainFinalizers(config: Config, s: System, s': System) {
    forall f :: f in s'.finalizers ==>
      f in s.finalizers && var fin, fin' := s.finalizers[f], s'.finalizers[f];
      || fin' == fin
      || (fin.staged.None? && fin'.staged.Some? && fin' == fin.(staged := fin'.staged)
          && s'.db == s.db && Loaded(s.db, fin.job, fin.token, fin.leased.cacheSource, fin'.staged.value))
      || (fin.staged.Some? && s'.db == s.db && exists access ::
            fin' == fin.(verdict := Some(Judged(config, fin.leased, fin.staged.value, access))))
  }

  lemma PlainApplied(config: Config, s: System, a: Action, s': System)
    requires Enabled(config, s, a) && Plain(s, a) && s' == Apply(config, s, a)
    ensures PlainFinalizers(config, s, s')
    ensures a.Maintain? ==>
      && (forall id :: id in a.batch ==> ClaimExpired(s.db, id, s.now))
      && s'.db == Aged(s.db, a.batch, s.now)
      && s'.notes == s.notes + BatchNotes(s.db, a.batch, s.now)
    ensures !a.Maintain? ==> s'.notes == s.notes
  {
  }

  lemma PlainLimits(config: Config, s: System, a: Action, s': System)
    requires TablesFit(config, s.db) && WithinLimits(config, s.db.jobs) && Tame(s.db, s'.db)
    requires Enabled(config, s, a) && s' == Apply(config, s, a)
    requires !a.Reserve? ==> s'.db.jobs.Keys <= s.db.jobs.Keys
    ensures WithinLimits(config, s'.db.jobs)
  {
    if a.Reserve? {
      AdmittedWithinLimits(config, s.db, a.command, s.now);
    } else {
      FewerActive(config, s.db.jobs, s'.db.jobs);
    }
  }

  lemma NoNewJobs(config: Config, s: System, a: Action, s': System)
    requires Enabled(config, s, a) && Plain(s, a) && s' == Apply(config, s, a) && !a.Reserve?
    ensures s'.db.jobs.Keys <= s.db.jobs.Keys
  {
    if a.Maintain? {
      AgedTables(s.db, a.batch, s.now);
    }
  }

  lemma PlainFits(config: Config, s: System, a: Action, s': System)
    requires SysFits(config, s) && TablesFit(config, s'.db) && Tame(s.db, s'.db) && WithinLimits(config, s'.db.jobs)
    requires PlainFinalizers(config, s, s')
    requires PublicationsFit(s'.db, s'.notes) && RequeuesFit(s'.db, s'.notes) && PlansFit(s')
    ensures SysFits(config, s')
  {
    forall f | f in s'.finalizers
      ensures FinFits(config, s'.db, s'.finalizers[f])
    {
      var fin, fin' := s.finalizers[f], s'.finalizers[f];
      assert FinFits(config, s.db, fin);
      if fin' == fin {
        PlainLeases(config, s, a, s'.db, fin);
      } else if fin.staged.None? {
        LoadedIsBacked(config, s.db, fin, fin'.staged.value);
      } else {
        var access :| fin' == fin.(verdict := Some(Judged(config, fin.leased, fin.staged.value, access)));
        JudgedFits(config, s.db, fin, access);
      }
    }
  }

  lemma PlainStepFits(config: Config, s: System, a: Action, s': System)
    requires SysFits(config, s) && Enabled(config, s, a) && Plain(s, a) && s' == Apply(config, s, a)
    ensures SysFits(config, s')
  {
    StepTame(config, s, a);
    PlainApplied(config, s, a, s');
    NotesOfTame(config, s, a, s');
    if !a.Reserve? {
      NoNewJobs(config, s, a, s');
    }
    PlainLimits(config, s, a, s');
    TameGoesOn(s.db, s'.db);
    PlansStay(config, s, a, s');
    PlainFits(config, s, a, s');
  }

  lemma PublishApplied(config: Config, s: System, f: nat, s': System)
    requires Enabled(config, s, Finish(f)) && s.finalizers[f].verdict == Some(Publish)
    requires s' == Apply(config, s, Finish(f))
    ensures s.finalizers[f].staged.Some? && s'.db == AfterPublish(s.db, s.finalizers[f], s.now)
    ensures s'.finalizers == s.finalizers - {f}
    ensures s'.notes == NotesAfter(s.db, s.notes, s.finalizers[f], s.now)
  {
  }

  lemma StepFits(config: Config, s: System, a: Action, s': System)
    requires SysFits(config, s) && Enabled(config, s, a) && s' == Apply(config, s, a)
    ensures SysFits(config, s')
  {
    if a.Acquire? {
      AcquireFits(config, s, a.f, a.id, a.lease, s');
    } else if Plain(s, a) {
      PlainStepFits(config, s, a, s');
    } else {
      PublishStepFits(config, s, a.f, s');
    }
  }

  lemma PublishStepFits(config: Config, s: System, f: nat, s': System)
    requires SysFits(config, s) && Enabled(config, s, Finish(f)) && s.finalizers[f].verdict == Some(Publish)
    requires s' == Apply(config, s, Finish(f))
    ensures SysFits(config, s')
  {
    assert FinFits(config, s.db, s.finalizers[f]);
    PublishApplied(config, s, f, s');
    AfterPublishTables(config, s.db, s'.db, s.finalizers[f], s.now);
    PublishGoesOn(s.db, s'.db, s.finalizers[f], s.now);
    PlansStay(config, s, Finish(f), s');
    PublishFits(config, s, f, s');
  }

  lemma PublishGoesOn(db: Tables, db': Tables, fin: Finalizer, now: int)
    requires JobsFit(db) && fin.staged.Some? && db' == AfterPublish(db, fin, now) && OnlyGains(db, db')
    ensures GoesOn(db, db')
  {
    GainsKeepFiles(db, db');
    AfterPublishJobs(db, db', fin, now);
    if Publishes(db, fin, now) {
      PublishedJob(db, fin, db.nextId, now);
    }
  }

  lemma {:induction false} RunFits(config: Config, s: System, actions: seq<Action>, end: System)
    requires SysFits(config, s) && Run(config, s, actions, end)
    ensures SysFits(config, end)
    decreases |actions|
  {
    if actions != [] {
      StepFits(config, s, actions[0], Apply(config, s, actions[0]));
      RunFits(config, Apply(config, s, actions[0]), actions[1..], end);
    }
  }

  lemma ReachableFits(config: Config, start: System, actions: seq<Action>, s: System)
    requires Initial(start) && Run(config, start, actions, s)
    ensures SysFits(config, s)
  {
    assert ActiveJobs(start.db.jobs) == {};
    assert forall r: nat :: ActiveOf(start.db.jobs, r) == {} && ActiveIn(start.db.jobs, r) == {};
    RunFits(config, start, actions, s);
  }

  // ---- safety of every run ----

  /** Over any run of lease acquisition, expiry, re-acquisition, publication and refusal by any
    number of finalizers, every succeeded job was published exactly once, and the projects
    created by publications are all different. */
  lemma PublishedExactlyOnce(config: Config, start: System, actions: seq<Action>, s: System)
    requires Initial(start) && Run(config, start, actions, s)
    ensures forall id :: id in s.db.jobs && s.db.jobs[id].state.Succeeded? ==> PublishedIn(s.notes, id)
    ensures forall k, l | 0 <= k < l < |s.notes| && s.notes[k].JobPublished? && s.notes[l].JobPublished? ::
      s.notes[k].job != s.notes[l].job && s.notes[k].project != s.notes[l].project
    ensures forall k :: 0 <= k < |s.notes| && s.notes[k].JobPublished? && s.notes[k].job in s.db.jobs ==>
      var job := s.db.jobs[s.notes[k].job];
      && job.state.Succeeded?
      && job.resultProject == if job.operation.PptxImportTypst? then Some(s.notes[k].project) else None
  {
    ReachableFits(config, start, actions, s);
    forall k | 0 <= k < |s.notes| && s.notes[k].JobPublished? && s.notes[k].job in s.db.jobs
      ensures NoteFits(s.db, s.notes[k])
    {
    }
  }

  /** Without the lease a finalizer changes no row. */
  lemma SupersededTokenChangesNothing(config: Config, s: System, f: nat)
    requires Enabled(config, s, Finish(f)) && !Holds(s.db, s.finalizers[f], s.now)
    ensures var s' := Apply(config, s, Finish(f));
            s'.db == s.db.(nextId := s'.db.nextId) && s'.notes == s.notes
  {
    var fin := s.finalizers[f];
    if fin.verdict.value.Refuse? && fin.job in s.db.jobs {
      assert Next(s.db.jobs[fin.job], Rejected(fin.token), s.now) == s.db.jobs[fin.job];
    }
  }

  /** The token was given out, and no job of that number carries it any more. */
  predicate TokenGone(db: Tables, id: nat, token: nat) {
    token < db.nextId && (id in db.jobs ==> db.jobs[id].token != Some(token))
  }

  lemma TokenStaysGone(config: Config, s: System, a: Action, s': System, id: nat, token: nat)
    requires SysFits(config, s) && SysFits(config, s') && Enabled(config, s, a) && s' == Apply(config, s, a)
    requires TokenGone(s.db, id, token)
    ensures TokenGone(s'.db, id, token)
  {
    if a.Acquire? {
      AcquireTokens(config, s, a.f, a.id, a.lease, s', id, token);
    } else if Plain(s, a) {
      StepTame(config, s, a);
      TameTokens(s.db, s'.db, id, token);
    } else {
      PublishApplied(config, s, a.f, s');
      PublishTokens(s.db, s'.db, s.finalizers[a.f], s.now, id, token);
    }
  }

  lemma AcquireTokens(config: Config, s: System, f: nat, job: nat, lease: nat, s': System, id: nat, token: nat)
    requires TablesFit(config, s.db) && token < s.db.nextId
    requires Enabled(config, s, Acquire(f, job, lease)) && s' == Apply(config, s, Acquire(f, job, lease))
    ensures job == id || TokenGone(s.db, id, token) ==> TokenGone(s'.db, id, token)
  {
    AcquireApplied(config, s, f, job, lease, s');
    AcquireTables(config, s.db, s'.db, job, s.now + lease, s.now);
  }

  lemma PublishTokens(db: Tables, db': Tables, fin: Finalizer, now: int, id: nat, token: nat)
    requires fin.staged.Some? && db' == AfterPublish(db, fin, now) && JobsFit(db') && TokenGone(db, id, token)
    ensures TokenGone(db', id, token)
  {
    AfterPublishJobs(db, db', fin, now);
  }

  lemma TameTokens(db: Tables, db': Tables, id: nat, token: nat)
    requires Tame(db, db') && JobsFit(db') && TokenGone(db, id, token)
    ensures TokenGone(db', id, token)
  {
  }

  lemma {:induction false} TokenGoneForGood(config: Config, s: System, actions: seq<Action>, end: System, id: nat, token: nat)
    requires SysFits(config, s) && Run(config, s, actions, end) && TokenGone(s.db, id, token)
    ensures TokenGone(end.db, id, token)
    decreases |actions|
  {
    if actions != [] {
      var s' := Apply(config, s, actions[0]);
      StepFits(config, s, actions[0], s');
      TokenStaysGone(config, s, actions[0], s', id, token);
      TokenGoneForGood(config, s', actions[1..], end, id, token);
    }
  }

  /** Once another finalizer has leased its job, a finalizer's token is of no use at any later
    moment of any run: it loads nothing, and finishing changes no row, whatever it had found. */
  lemma SupersededForGood(config: Config, start: System, before: seq<Action>, s: System, f: nat, g: nat, lease: nat,
                          after: seq<Action>, end: System, h: nat)
    requires Initial(start) && Run(config, start, before, s) && f in s.finalizers
    requires Enabled(config, s, Acquire(g, s.finalizers[f].job, lease))
    requires Run(config, Apply(config, s, Acquire(g, s.finalizers[f].job, lease)), after, end)
    requires h in end.finalizers && end.finalizers[h].job == s.finalizers[f].job && end.finalizers[h].token == s.finalizers[f].token
    ensures !Current(end.db, end.finalizers[h])
    ensures forall source, row :: !IsStaged(end.db, s.finalizers[f].job, s.finalizers[f].token, source, row)
    ensures Enabled(config, end, Finish(h)) ==>
      var end' := Apply(config, end, Finish(h));
      end'.db == end.db.(nextId := end'.db.nextId) && end'.notes == end.notes
  {
    var fin := s.finalizers[f];
    var leased := Apply(config, s, Acquire(g, fin.job, lease));
    ReachableFits(config, start, before, s);
    assert fin.token < s.db.nextId by {
      assert FinFits(config, s.db, fin);
    }
    AcquireTokens(config, s, g, fin.job, lease, leased, fin.job, fin.token);
    StepFits(config, s, Acquire(g, fin.job, lease), leased);
    TokenGoneForGood(config, leased, after, end, fin.job, fin.token);
    GoneIsUseless(config, end, h);
  }

  lemma GoneIsUseless(config: Config, s: System, h: nat)
    requires h in s.finalizers && TokenGone(s.db, s.finalizers[h].job, s.finalizers[h].token)
    ensures !Current(s.db, s.finalizers[h])
    ensures forall source, row :: !IsStaged(s.db, s.finalizers[h].job, s.finalizers[h].token, source, row)
    ensures Enabled(config, s, Finish(h)) ==>
      Apply(config, s, Finish(h)).db == s.db.(nextId := Apply(config, s, Finish(h)).db.nextId)
      && Apply(config, s, Finish(h)).notes == s.notes
  {
    if Enabled(config, s, Finish(h)) {
      SupersededTokenChangesNothing(config, s, h);
    }
  }

  /** In every reachable state the holder of a lease, whose job has the link it was leased with, still
    finds every file that it loaded, so its publication does not fail. */
  lemma LeaseHolderCanPublish(config: Config, start: System, actions: seq<Action>, s: System, f: nat)
    requires Initial(start) && Run(config, start, actions, s) && f in s.finalizers && s.finalizers[f].staged.Some?
    requires Holds(s.db, s.finalizers[f], s.now)
    requires s.db.jobs[s.finalizers[f].job].cacheSource == s.finalizers[f].leased.cacheSource
    ensures Publishes(s.db, s.finalizers[f], s.now)
  {
    ReachableFits(config, start, actions, s);
    assert FinFits(config, s.db, s.finalizers[f]);
    LinkedMayPublish(config, s.db, s.finalizers[f], s.now);
  }

  /** Artifacts exist only for succeeded jobs, and those of a succeeded job meet its contract. */
  lemma ArtifactsMeetContract(config: Config, start: System, actions: seq<Action>, s: System)
    requires Initial(start) && Run(config, start, actions, s)
    ensures forall key :: key in s.db.artifacts ==> key.0 in s.db.jobs && s.db.jobs[key.0].state.Succeeded?
    ensures forall id :: id in s.db.jobs && s.db.jobs[id].state.Succeeded? ==>
      MeetsContract(config, s.db, id, s.db.jobs[id].operation)
  {
    ReachableFits(config, start, actions, s);
  }

  /** No job's cache source and no file that a job input, transfer or artifact refers to is ever deleted. */
  lemma ReferencesHold(config: Config, start: System, actions: seq<Action>, s: System)
    requires Initial(start) && Run(config, start, actions, s)
    ensures forall id :: id in s.db.jobs && s.db.jobs[id].cacheSource.Some? ==>
      s.db.jobs[id].cacheSource.value in s.db.jobs
    ensures forall blob :: Referenced(s.db, blob) ==> blob in s.db.blobs
  {
    ReachableFits(config, start, actions, s);
    forall id | id in s.db.jobs
      ensures LinksFit(s.db, id, s.db.jobs[id])
    {
    }
    forall t | t in s.db.transfers
      ensures TransferFits(s.db, s.db.transfers[t])
    {
    }
  }

  /** Active jobs stay within the limits and no two jobs share an idempotency key. */
  lemma AdmissionHolds(config: Config, start: System, actions: seq<Action>, s: System)
    requires Initial(start) && Run(config, start, actions, s)
    ensures WithinLimits(config, s.db.jobs)
    ensures forall i, j :: i in s.db.jobs && j in s.db.jobs && s.db.jobs[i].idempotency == s.db.jobs[j].idempotency ==> i == j
  {
    ReachableFits(config, start, actions, s);
  }

  /** Lease expiry puts a job back into the queue at most twice, one less than its attempts. */
  lemma RequeuesAreBounded(config: Config, start: System, actions: seq<Action>, s: System, id: nat)
    requires Initial(start) && Run(config, start, actions, s)
    ensures Requeues(s.notes, id) <= MAX_ATTEMPTS - 1
    ensures id in s.db.jobs ==> JobFits(s.db.jobs[id])
  {
    ReachableFits(config, start, actions, s);
  }

  // ---- one job over a run ----

  /** Jobs that were there before go on; the identifiers of deleted ones stay unused. */
  ghost predicate JobsContinue(db: Tables, db': Tables) {
    && db.nextId <= db'.nextId
    && (forall id :: id in db'.jobs && id < db.nextId ==> id in db.jobs && Continues(db.jobs[id], db'.jobs[id]))
    && (forall id :: id in db.jobs && db.jobs[id].state.Finalizing? ==>
          id in db'.jobs && FinalizingOn(db.jobs[id], db'.jobs[id]))
  }

  lemma TameContinues(db: Tables, db': Tables)
    requires JobsFit(db) && Tame(db, db')
    ensures JobsContinue(db, db')
  {
  }

  lemma AcquireContinues(db: Tables, db': Tables, id: nat, expires: int, now: int)
    requires JobsFit(db) && id in db.jobs && db.jobs[id].state.Finalizing? && db'.nextId == db.nextId + 1
    requires db'.jobs == db.jobs[id := db.jobs[id].(token := Some(db.nextId), tokenExpires := expires, updatedAt := now)]
    ensures JobsContinue(db, db')
  {
  }

  lemma PlainContinues(config: Config, s: System, a: Action, s': System)
    requires SysFits(config, s) && Enabled(config, s, a) && Plain(s, a) && s' == Apply(config, s, a)
    ensures JobsContinue(s.db, s'.db)
  {
    StepTame(config, s, a);
    TameContinues(s.db, s'.db);
  }

  lemma StepContinues(config: Config, s: System, a: Action, s': System)
    requires SysFits(config, s) && Enabled(config, s, a) && s' == Apply(config, s, a)
    ensures JobsContinue(s.db, s'.db)
  {
    if a.Acquire? {
      AcquireApplied(config, s, a.f, a.id, a.lease, s');
      AcquireTables(config, s.db, s'.db, a.id, s.now + a.lease, s.now);
      AcquireContinues(s.db, s'.db, a.id, s.now + a.lease, s.now);
    } else if Plain(s, a) {
      PlainContinues(config, s, a, s');
    } else {
      PublishApplied(config, s, a.f, s');
      PublishContinues(s.db, s'.db, s.finalizers[a.f], s.now);
    }
  }

  lemma PublishContinues(db: Tables, db': Tables, fin: Finalizer, now: int)
    requires JobsFit(db) && fin.staged.Some? && db' == AfterPublish(db, fin, now)
    ensures JobsContinue(db, db')
  {
    AfterPublishJobs(db, db', fin, now);
    if Publishes(db, fin, now) {
      PublishedJob(db, fin, db.nextId, now);
      PublishedMovesOn(db.jobs[fin.job], fin.token, db.nextId, now);
      OneContinues(db, db', fin.job);
    }
  }

  lemma PublishedMovesOn(job: Job, token: nat, project: nat, now: int)
    requires JobFits(job)
    ensures Continues(job, Next(job, Published(token, project), now))
    ensures job.state.Finalizing? ==> FinalizingOn(job, Next(job, Published(token, project), now))
  {
  }

  lemma OneContinues(db: Tables, db': Tables, id: nat)
    requires id in db.jobs && id in db'.jobs && db'.jobs == db.jobs[id := db'.jobs[id]] && db.nextId <= db'.nextId
    requires Continues(db.jobs[id], db'.jobs[id]) && FinalizingOn(db.jobs[id], db'.jobs[id])
    ensures JobsContinue(db, db')
  {
  }

  /** Over any run a job goes on until it is deleted. */
  lemma {:induction false} JobsOnlyMoveOn(config: Config, s: System, actions: seq<Action>, end: System, id: nat)
    requires SysFits(config, s) && Run(config, s, actions, end) && id in s.db.jobs
    ensures end.db.nextId >= s.db.nextId
    ensures id in end.db.jobs ==> Continues(s.db.jobs[id], end.db.jobs[id]) && JobFits(end.db.jobs[id])
    decreases |actions|
  {
    if actions != [] {
      var s' := Apply(config, s, actions[0]);
      StepFits(config, s, actions[0], s');
      StepContinues(config, s, actions[0], s');
      if id in s'.db.jobs {
        JobsOnlyMoveOn(config, s', actions[1..], end, id);
        if id in end.db.jobs {
          ContinuesChain(s.db.jobs[id], s'.db.jobs[id], end.db.jobs[id]);
        }
      } else {
        DeletedStaysDeleted(config, s', actions[1..], end, id);
      }
    }
  }

  lemma ContinuesChain(job: Job, job': Job, job'': Job)
    requires Continues(job, job') && Continues(job', job'')
    ensures Continues(job, job'')
  {
  }

  /** The same but for a link that may have been cleared. */
  predicate EndKept(job: Job, job': Job) {
    job' == job.(cacheSource := job'.cacheSource) && LinkKept(job, job')
  }

  /** The same for runs from the start: what is terminal or cancelled stays so. */
  lemma EndsAreFinal(config: Config, start: System, before: seq<Action>, s: System, after: seq<Action>, end: System, id: nat)
    requires Initial(start) && Run(config, start, before, s) && Run(config, s, after, end)
    requires id in s.db.jobs && id in end.db.jobs
    ensures Terminal(s.db.jobs[id].state) ==> EndKept(s.db.jobs[id], end.db.jobs[id])
    ensures s.db.jobs[id].cancelRequested ==> end.db.jobs[id].state.Running? || end.db.jobs[id].state.Cancelled?
    ensures end.db.jobs[id].completedAt.Some? <==> Terminal(end.db.jobs[id].state)
    ensures end.db.jobs[id].token.Some? ==> end.db.jobs[id].state.Finalizing?
  {
    ReachableFits(config, start, before, s);
    JobsOnlyMoveOn(config, s, after, end, id);
  }

  lemma {:induction false} DeletedStaysDeleted(config: Config, s: System, actions: seq<Action>, end: System, id: nat)
    requires SysFits(config, s) && Run(config, s, actions, end) && id !in s.db.jobs && id < s.db.nextId
    ensures id !in end.db.jobs && end.db.nextId >= s.db.nextId
    decreases |actions|
  {
    if actions != [] {
      var s' := Apply(config, s, actions[0]);
      StepFits(config, s, actions[0], s');
      StepContinues(config, s, actions[0], s');
      DeletedStaysDeleted(config, s', actions[1..], end, id);
    }
  }

  // ---- cache hits ----

  /** The source's artifacts and their files are the same in both tables. */
  ghost predicate SameArtifacts(db: Tables, db': Tables, source: nat) {
    && (forall role :: (source, role) in db.artifacts <==> (source, role) in db'.artifacts)
    && (forall role :: (source, role) in db.artifacts ==>
          var a := db.artifacts[(source, role)];
          && db'.artifacts[(source, role)] == a
          && a.blob in db.blobs && a.blob in db'.blobs && db'.blobs[a.blob] == db.blobs[a.blob])
  }

  /** Only a publication adds artifact rows, and only to the job it closes. */
  lemma ArtifactOrigin(config: Config, s: System, a: Action, s': System, key: (nat, string))
    requires SysFits(config, s) && Enabled(config, s, a) && s' == Apply(config, s, a) && key in s'.db.artifacts
    ensures key in s.db.artifacts || (key.0 in s.db.jobs && s.db.jobs[key.0].state.Finalizing?)
  {
    if a.Finish? && !Plain(s, a) {
      var fin := s.finalizers[a.f];
      assert FinFits(config, s.db, fin);
      PublishApplied(config, s, a.f, s');
      PublishOrigin(config, s.db, s'.db, fin, s.now, key);
    } else {
      NoNewArtifacts(config, s, a, s');
    }
  }

  lemma NoNewArtifacts(config: Config, s: System, a: Action, s': System)
    requires Enabled(config, s, a) && s' == Apply(config, s, a) && (a.Acquire? || Plain(s, a))
    ensures s'.db.artifacts.Keys <= s.db.artifacts.Keys
  {
    if a.Maintain? {
      AgedTables(s.db, a.batch, s.now);
    } else if a.DeleteExpired? {
      RemovedRows(s.db, Removed(s.db, s.passes[a.p].chosen.value), s.passes[a.p].chosen.value);
    }
  }

  lemma PublishOrigin(config: Config, db: Tables, db': Tables, fin: Finalizer, now: int, key: (nat, string))
    requires RowsFit(db) && FinFits(config, db, fin) && fin.verdict == Some(Publish)
    requires db' == AfterPublish(db, fin, now) && key in db'.artifacts
    ensures key in db.artifacts || (key.0 in db.jobs && db.jobs[key.0].state.Finalizing?)
  {
    if Publishes(db, fin, now) {
      LeaseVouches(config, db, fin, now);
      assert forall role :: (fin.job, role) !in db.artifacts;
      InsertedRows(db.artifacts, fin.job, fin.staged.value);
    }
  }

  lemma StepKeepsFiles(config: Config, s: System, a: Action, s': System)
    requires SysFits(config, s) && Enabled(config, s, a) && s' == Apply(config, s, a)
    ensures KeepsFiles(s.db, s'.db)
  {
    if a.Acquire? {
      AcquireKeepsFiles(config, s, a.f, a.id, a.lease, s');
    } else if Plain(s, a) {
      StepTame(config, s, a);
    } else {
      PublishKeepsFiles(config, s, a.f, s');
    }
  }

  lemma AcquireKeepsFiles(config: Config, s: System, f: nat, id: nat, lease: nat, s': System)
    requires TablesFit(config, s.db) && Enabled(config, s, Acquire(f, id, lease)) && s' == Apply(config, s, Acquire(f, id, lease))
    ensures KeepsFiles(s.db, s'.db)
  {
    AcquireApplied(config, s, f, id, lease, s');
    AcquireTables(config, s.db, s'.db, id, s.now + lease, s.now);
    GainsKeepFiles(s.db, s'.db);
  }

  lemma PublishKeepsFiles(config: Config, s: System, f: nat, s': System)
    requires SysFits(config, s) && Enabled(config, s, Finish(f)) && s.finalizers[f].verdict == Some(Publish)
    requires s' == Apply(config, s, Finish(f))
    ensures KeepsFiles(s.db, s'.db)
  {
    assert FinFits(config, s.db, s.finalizers[f]);
    PublishApplied(config, s, f, s');
    AfterPublishGains(config, s.db, s'.db, s.finalizers[f], s.now);
    GainsKeepFiles(s.db, s'.db);
  }

  lemma SourceStays(db: Tables, db': Tables, source: nat)
    requires KeepsFiles(db, db') && RowsFit(db) && source in db'.jobs
    requires forall role :: (source, role) in db'.artifacts ==> (source, role) in db.artifacts
    ensures SameArtifacts(db, db', source)
  {
    forall role | (source, role) in db.artifacts
      ensures var a := db.artifacts[(source, role)];
              && (source, role) in db'.artifacts && db'.artifacts[(source, role)] == a
              && a.blob in db.blobs && a.blob in db'.blobs && db'.blobs[a.blob] == db.blobs[a.blob]
    {
      assert (source, role) in db'.artifacts;
      assert Referenced(db', db.artifacts[(source, role)].blob);
    }
  }

  lemma SourceStep(config: Config, s: System, a: Action, s': System, id: nat, source: nat)
    requires SysFits(config, s) && SysFits(config, s') && Enabled(config, s, a) && s' == Apply(config, s, a)
    requires id in s.db.jobs && s.db.jobs[id].state.Finalizing? && s.db.jobs[id].cacheSource == Some(source)
    requires id in s'.db.jobs && s'.db.jobs[id].cacheSource == Some(source)
    ensures SameArtifacts(s.db, s'.db, source) && source in s'.db.jobs && s'.db.jobs[source].state.Succeeded?
  {
    assert LinksFit(s.db, id, s.db.jobs[id]) && LinksFit(s'.db, id, s'.db.jobs[id]);
    StepKeepsFiles(config, s, a, s');
    forall role | (source, role) in s'.db.artifacts
      ensures (source, role) in s.db.artifacts
    {
      ArtifactOrigin(config, s, a, s', (source, role));
    }
    SourceStays(s.db, s'.db, source);
  }

  /** A pass under way has chosen the job for deletion. */
  predicate Picked(s: System, source: nat) {
    exists p :: p in s.passes && s.passes[p].chosen.Some? && source in s.passes[p].chosen.value
  }

  predicate LinkedTo(db: Tables, id: nat, source: nat) {
    id in db.jobs && db.jobs[id].state.Finalizing? && db.jobs[id].cacheSource == Some(source)
  }

  /** Only the deletion of the source itself clears a link. */
  lemma LinkStep(config: Config, s: System, a: Action, s': System, id: nat, source: nat)
    requires SysFits(config, s) && Enabled(config, s, a) && s' == Apply(config, s, a)
    requires LinkedTo(s.db, id, source) && !(a.DeleteExpired? && source in s.passes[a.p].chosen.value)
    ensures id in s'.db.jobs && s'.db.jobs[id].cacheSource == Some(source)
  {
    if a.Acquire? {
      AcquiredLink(config, s, a, s', id);
    } else if a.Maintain? {
      AgedLink(s.db, s'.db, a.batch, s.now, id);
    } else if a.DeleteExpired? {
      RetiredLink(s, a.p, s', id);
    } else if Plain(s, a) {
      EventLink(config, s, a, s', id);
    } else {
      PublishApplied(config, s, a.f, s');
      PublishedLink(s.db, s'.db, s.finalizers[a.f], s.now, id);
    }
  }

  lemma AcquiredLink(config: Config, s: System, a: Action, s': System, id: nat)
    requires SysFits(config, s) && a.Acquire? && Enabled(config, s, a) && s' == Apply(config, s, a) && id in s.db.jobs
    ensures id in s'.db.jobs && s'.db.jobs[id].cacheSource == s.db.jobs[id].cacheSource
  {
    AcquireApplied(config, s, a.f, a.id, a.lease, s');
    LeasedJob(s.db, a.id, s.now + a.lease, s.now);
  }

  lemma AgedLink(db: Tables, db': Tables, batch: set<nat>, now: int, id: nat)
    requires JobsFit(db) && db' == Aged(db, batch, now) && id in db.jobs && db.jobs[id].state.Finalizing?
    ensures id in db'.jobs && db'.jobs[id] == db.jobs[id]
  {
    AgedTables(db, batch, now);
    AgedJobKept(db.jobs[id], id in batch, now);
  }

  lemma PublishedLink(db: Tables, db': Tables, fin: Finalizer, now: int, id: nat)
    requires fin.staged.Some? && db' == AfterPublish(db, fin, now) && id in db.jobs
    ensures id in db'.jobs && db'.jobs[id].cacheSource == db.jobs[id].cacheSource
  {
  }

  /** A plain step outside maintenance is at most one event of one job. */
  lemma EventLink(config: Config, s: System, a: Action, s': System, id: nat)
    requires JobsFit(s.db) && Enabled(config, s, a) && s' == Apply(config, s, a) && Plain(s, a)
    requires !a.Maintain? && !a.DeleteExpired? && id in s.db.jobs && s.db.jobs[id].state.Finalizing?
    ensures id in s'.db.jobs && s'.db.jobs[id].cacheSource == s.db.jobs[id].cacheSource
  {
    if OneEvent(a) {
      OneEventApplied(config, s, a);
      EventKeepsLink(s.db, a.id, EventOf(s, a), s.now, id);
    } else if TouchesNoTable(a) {
      StillApplied(config, s, a);
    } else if a.StoreInput? || a.Claim? || a.IssueUpload? || a.Upload? || a.Complete? {
      WorkLink(config, s, a, s', id);
    } else {
      EdgeLink(config, s, a, s', id);
    }
  }

  lemma EventKeepsLink(db: Tables, id: nat, e: JobEvent, now: int, other: nat)
    requires JobsFit(db) && other in db.jobs && db.jobs[other].state.Finalizing?
    ensures other in WithJob(db, id, e, now).jobs
    ensures WithJob(db, id, e, now).jobs[other].cacheSource == db.jobs[other].cacheSource
  {
    LifeCycle(db.jobs[other], e, now);
  }

  lemma WorkLink(config: Config, s: System, a: Action, s': System, id: nat)
    requires JobsFit(s.db) && Enabled(config, s, a) && s' == Apply(config, s, a)
    requires a.StoreInput? || a.Claim? || a.IssueUpload? || a.Upload? || a.Complete?
    requires id in s.db.jobs && s.db.jobs[id].state.Finalizing?
    ensures id in s'.db.jobs && s'.db.jobs[id].cacheSource == s.db.jobs[id].cacheSource
  {
  }

  lemma EdgeLink(config: Config, s: System, a: Action, s': System, id: nat)
    requires JobsFit(s.db) && Enabled(config, s, a) && s' == Apply(config, s, a) && Plain(s, a)
    requires a.Reserve? || a.LinkHit? || a.Finish?
    requires id in s.db.jobs && s.db.jobs[id].state.Finalizing?
    ensures id in s'.db.jobs && s'.db.jobs[id].cacheSource == s.db.jobs[id].cacheSource
  {
    if a.LinkHit? {
      EventKeepsLink(s.db, s.hits[a.c].job, CacheFound(s.hits[a.c].source), s.hits[a.c].now, id);
    } else if a.Finish? {
      RefusalApplied(config, s, a.f, s');
      EventKeepsLink(s.db, s.finalizers[a.f].job, Rejected(s.finalizers[a.f].token), s.now, id);
    }
  }

  lemma RefusalApplied(config: Config, s: System, f: nat, s': System)
    requires Enabled(config, s, Finish(f)) && Plain(s, Finish(f)) && s' == Apply(config, s, Finish(f))
    ensures s'.db == s.db || s'.db == WithJob(s.db, s.finalizers[f].job, Rejected(s.finalizers[f].token), s.now)
  {
  }

  /** A finalizing job is not deleted, and its link is cleared exactly with its source. */
  lemma RetiredLink(s: System, p: nat, s': System, id: nat)
    requires PlansFit(s) && p in s.passes && s.passes[p].chosen.Some? && s'.db == Retired(s.db, s.passes[p].chosen.value)
    requires id in s.db.jobs && s.db.jobs[id].state.Finalizing?
    ensures id in s'.db.jobs && s'.db.jobs[id] == Unlinked(s.db.jobs[id], s.passes[p].chosen.value)
  {
    assert ChosenFits(s.db, s.passes[p].chosen.value);
    RemovedRows(s.db, Removed(s.db, s.passes[p].chosen.value), s.passes[p].chosen.value);
  }

  /** What has a dependent is not chosen. */
  lemma StaysUnpicked(config: Config, s: System, a: Action, s': System, id: nat, source: nat)
    requires SysFits(config, s) && Enabled(config, s, a) && s' == Apply(config, s, a)
    requires LinkedTo(s.db, id, source) && !Picked(s, source)
    ensures !Picked(s', source)
  {
    PlansApplied(config, s, a, s');
    forall p | p in s'.passes && s'.passes[p].chosen.Some?
      ensures source !in s'.passes[p].chosen.value
    {
      ChosenHasNoDependent(s.db, s'.passes[p].now, id);
    }
  }

  /** As long as no pass has chosen its source, a cache hit keeps it while it is finalizing. */
  lemma {:induction false} CacheHitKeepsItsSource(config: Config, s: System, actions: seq<Action>, end: System, id: nat, source: nat)
    requires SysFits(config, s) && Run(config, s, actions, end) && LinkedTo(s.db, id, source) && !Picked(s, source)
    requires id in end.db.jobs && end.db.jobs[id].state.Finalizing?
    ensures SourceKept(s.db, end.db, id, source) && !Picked(end, source)
    decreases |actions|
  {
    if actions == [] {
      SourceNow(config, s, id, source);
    } else {
      var s' := Apply(config, s, actions[0]);
      StepFits(config, s, actions[0], s');
      LinkStep(config, s, actions[0], s', id, source);
      StaysUnpicked(config, s, actions[0], s', id, source);
      StillFinalizing(config, s, actions, end, id);
      SourceStep(config, s, actions[0], s', id, source);
      CacheHitKeepsItsSource(config, s', actions[1..], end, id, source);
      SourceKeptChain(s.db, s'.db, end.db, id, source);
    }
  }

  /** A job that is finalizing now and in the end is so after the first step. */
  lemma StillFinalizing(config: Config, s: System, actions: seq<Action>, end: System, id: nat)
    requires SysFits(config, s) && Run(config, s, actions, end) && actions != []
    requires id in s.db.jobs && s.db.jobs[id].state.Finalizing?
    requires id in end.db.jobs && end.db.jobs[id].state.Finalizing?
    ensures var s' := Apply(config, s, actions[0]); id in s'.db.jobs && s'.db.jobs[id].state.Finalizing?
  {
    var s' := Apply(config, s, actions[0]);
    StepFits(config, s, actions[0], s');
    StepContinues(config, s, actions[0], s');
    JobsOnlyMoveOn(config, s', actions[1..], end, id);
  }

  lemma SourceKeptChain(db: Tables, db': Tables, db'': Tables, id: nat, source: nat)
    requires SameArtifacts(db, db', source) && SourceKept(db', db'', id, source)
    ensures SourceKept(db, db'', id, source)
  {
    SameArtifactsChain(db, db', db'', source);
  }

  /** The job is still linked to its source, which has the same artifacts as before, at least one. */
  ghost predicate SourceKept(db: Tables, db': Tables, id: nat, source: nat) {
    && LinkedTo(db', id, source) && source in db'.jobs && db'.jobs[source].state.Succeeded?
    && SameArtifacts(db, db', source) && exists role :: (source, role) in db'.artifacts
  }

  /** In every continuation the job keeps its source for as long as it is finalizing. */
  ghost predicate HitIsSafe(config: Config, s: System, id: nat, source: nat) {
    forall actions, end :: Run(config, s, actions, end) && id in end.db.jobs && end.db.jobs[id].state.Finalizing? ==>
      SourceKept(s.db, end.db, id, source)
  }

  lemma PickedIsLost(config: Config, s: System, id: nat, source: nat) returns (p: nat, end: System)
    requires SysFits(config, s) && LinkedTo(s.db, id, source) && Picked(s, source)
    ensures Enabled(config, s, DeleteExpired(p)) && end == Apply(config, s, DeleteExpired(p))
    ensures id in end.db.jobs && end.db.jobs[id] == s.db.jobs[id].(cacheSource := None)
    ensures source !in end.db.jobs
  {
    p :| p in s.passes && s.passes[p].chosen.Some? && source in s.passes[p].chosen.value;
    end := Apply(config, s, DeleteExpired(p));
    RetiredLink(s, p, end, id);
    RemovedRows(s.db, Removed(s.db, s.passes[p].chosen.value), s.passes[p].chosen.value);
  }

  lemma PickedIsUnsafe(config: Config, s: System, id: nat, source: nat)
    requires SysFits(config, s) && LinkedTo(s.db, id, source) && Picked(s, source)
    ensures !HitIsSafe(config, s, id, source)
  {
    var p, end := PickedIsLost(config, s, id, source);
    assert [DeleteExpired(p)][1..] == [] && Run(config, end, [], end);
    assert Run(config, s, [DeleteExpired(p)], end);
  }

  /** The exact condition, in every reachable state: a cache hit that is finalizing keeps its source
    with the same artifacts and contents, at least one, in every continuation if and only if no
    maintenance pass under way has chosen the source. */
  lemma CacheHitIsSafe(config: Config, start: System, before: seq<Action>, s: System, id: nat, source: nat)
    requires Initial(start) && Run(config, start, before, s) && LinkedTo(s.db, id, source)
    ensures HitIsSafe(config, s, id, source) <==> !Picked(s, source)
  {
    ReachableFits(config, start, before, s);
    if Picked(s, source) {
      PickedIsUnsafe(config, s, id, source);
    } else {
      forall actions, end | Run(config, s, actions, end) && id in end.db.jobs && end.db.jobs[id].state.Finalizing?
        ensures SourceKept(s.db, end.db, id, source)
      {
        CacheHitKeepsItsSource(config, s, actions, end, id, source);
      }
    }
  }

  /** The same at the moment the link commits: it is safe from then on if and only if no pass had
    chosen the source before. */
  lemma LinkIsSafe(config: Config, start: System, before: seq<Action>, s: System, c: nat)
    requires Initial(start) && Run(config, start, before, s) && Enabled(config, s, LinkHit(c))
    ensures var linked := Apply(config, s, LinkHit(c));
            && LinkedTo(linked.db, s.hits[c].job, s.hits[c].source)
            && (HitIsSafe(config, linked, s.hits[c].job, s.hits[c].source) <==> !Picked(s, s.hits[c].source))
  {
    var linked := Apply(config, s, LinkHit(c));
    RunAppends(config, start, before, s, LinkHit(c));
    assert linked.passes == s.passes;
    CacheHitIsSafe(config, start, before + [LinkHit(c)], linked, s.hits[c].job, s.hits[c].source);
  }

  lemma {:induction false} RunAppends(config: Config, start: System, actions: seq<Action>, s: System, a: Action)
    requires Run(config, start, actions, s) && Enabled(config, s, a)
    ensures Run(config, start, actions + [a], Apply(config, s, a))
    decreases |actions|
  {
    var longer := actions + [a];
    if actions == [] {
      assert longer[1..] == [] && Run(config, Apply(config, s, a), [], Apply(config, s, a));
    } else {
      assert longer[1..] == actions[1..] + [a];
      RunAppends(config, Apply(config, start, actions[0]), actions[1..], s, a);
    }
  }

  lemma SourceNow(config: Config, s: System, id: nat, source: nat)
    requires SysFits(config, s) && id in s.db.jobs && s.db.jobs[id].cacheSource == Some(source)
    ensures SameArtifacts(s.db, s.db, source) && source in s.db.jobs && s.db.jobs[source].state.Succeeded?
    ensures s.db.jobs[source].operation == s.db.jobs[id].operation
    ensures exists role :: (source, role) in s.db.artifacts
  {
    assert LinksFit(s.db, id, s.db.jobs[id]);
  }

  lemma SameArtifactsChain(db: Tables, db': Tables, db'': Tables, source: nat)
    requires SameArtifacts(db, db', source) && SameArtifacts(db', db'', source)
    ensures SameArtifacts(db, db'', source)
  {
  }

  function SourceRow(db: Tables, source: nat, role: string): StagedArtifact
    requires (source, role) in db.artifacts && db.artifacts[(source, role)].blob in db.blobs
  {
    var a := db.artifacts[(source, role)];
    StagedArtifact(None, a.blob, role, a.mediaType, a.filename, a.size, a.digest, db.blobs[a.blob].content)
  }

  /** The artifacts of a succeeded job, loaded for another one, meet the contract of their operation. */
  lemma SourceMeetsContract(config: Config, db: Tables, id: nat, token: nat, source: nat, staged: seq<StagedArtifact>)
    requires RowsFit(db) && LinkedTo(db, id, source) && db.jobs[id].token == Some(token)
    requires source in db.jobs && db.jobs[source].state.Succeeded? && Loaded(db, id, token, Some(source), staged)
    requires MeetsContract(config, db, source, db.jobs[id].operation)
    ensures SetOk(config, db.jobs[id].operation, staged)
  {
    forall i | 0 <= i < |staged|
      ensures RowOk(config, db.jobs[id].operation, staged[i])
      ensures (source, staged[i].role) in db.artifacts && staged[i] == SourceRow(db, source, staged[i].role)
    {
      assert staged[i] in staged;
      assert ArtifactOk(config, db.jobs[id].operation, db.blobs, staged[i].role, db.artifacts[(source, staged[i].role)]);
    }
    forall c | c in Contract(db.jobs[id].operation) && c.required
      ensures HasRole(staged, c.role)
    {
      var row := SourceRow(db, source, c.role);
      assert IsStaged(db, id, token, Some(source), row);
      assert row in staged;
      var i :| 0 <= i < |staged| && staged[i] == row;
    }
  }

  /** What a current finalizer of a cache hit loads meets the contract if and only if the job still
    has the link it was leased with; once that is cleared, nothing is loaded. */
  lemma CacheHitLoadsItsResult(config: Config, start: System, actions: seq<Action>, s: System, f: nat, staged: seq<StagedArtifact>)
    requires Initial(start) && Run(config, start, actions, s) && f in s.finalizers && Current(s.db, s.finalizers[f])
    requires s.finalizers[f].leased.cacheSource.Some?
    requires Loaded(s.db, s.finalizers[f].job, s.finalizers[f].token, s.finalizers[f].leased.cacheSource, staged)
    ensures SetOk(config, s.db.jobs[s.finalizers[f].job].operation, staged) <==> Linked(s.db, s.finalizers[f])
    ensures staged == [] <==> !Linked(s.db, s.finalizers[f])
  {
    var fin := s.finalizers[f];
    ReachableFits(config, start, actions, s);
    if Linked(s.db, fin) {
      var source := fin.leased.cacheSource.value;
      SourceNow(config, s, fin.job, source);
      assert MeetsContract(config, s.db, source, s.db.jobs[source].operation);
      SourceMeetsContract(config, s.db, fin.job, fin.token, source, staged);
      NothingIsIncomplete(config, s.db.jobs[fin.job].operation);
    } else {
      NotLinkedNotLoaded(s.db, fin, staged);
      NothingIsIncomplete(config, s.db.jobs[fin.job].operation);
    }
  }

  lemma NotLinkedNotLoaded(db: Tables, fin: Finalizer, staged: seq<StagedArtifact>)
    requires Current(db, fin) && !Linked(db, fin) && fin.leased.cacheSource.Some?
    requires Loaded(db, fin.job, fin.token, fin.leased.cacheSource, staged)
    ensures staged == []
  {
    FirstIsStaged(staged);
  }

  lemma FirstIsStaged(staged: seq<StagedArtifact>)
    ensures staged == [] || staged[0] in staged
  {
  }

  /** Every operation requires some file. */
  lemma NothingIsIncomplete(config: Config, operation: Operation)
    ensures !SetOk(config, operation, [])
  {
    assert Contract(operation)[0] in Contract(operation) && Contract(operation)[0].required;
    assert !HasRole([], Contract(operation)[0].role);
  }
}
