/** A cache hit whose source a maintenance pass had chosen before the link to it committed
  (backend/src/document_processing/worker_persistence.rs and finalization.rs). */
module ProcessingCacheHits {
  import opened Wrappers
  import opened ProcessingModel
  import opened ProcessingTables
  import opened ProcessingResults
  import opened ProcessingInvariant
  import opened ProcessingFinalizers
  import opened ProcessingRuns
  import opened ProcessingSteps
  import opened ProcessingProofs
  import opened ProcessingTheorems
  import opened ProcessingExpiry
  import opened ProcessingRefusals
  import opened ProcessingExamples

  // ---- a hit that lost its source is refused ----

  /** Without its source a cache hit has nothing to deliver: no worker ever delivered its attempt. */
  lemma NothingDelivered(s: System, end: System, id: nat, source: nat)
    requires RowsFit(s.db) && LinkedTo(s.db, id, source) && id in end.db.jobs && end.db.delivered <= s.db.delivered
    requires end.db.jobs[id].attempts == s.db.jobs[id].attempts
    ensures Delivery(end.db, id, [])
  {
  }

  lemma NothingIsRefused(config: Config, job: Job)
    ensures Judged(config, job, [], Allowed) == Refuse(ArtifactSet)
  {
    NothingIsIncomplete(config, job.operation);
  }

  lemma RetiredDeliveries(s: System, p: nat, config: Config, end: System)
    requires Enabled(config, s, DeleteExpired(p)) && end == Apply(config, s, DeleteExpired(p))
    ensures end.db.delivered <= s.db.delivered
  {
  }

  /** In every reachable state: a finalizing cache hit whose source has been chosen can end refused
    as an incomplete set. */
  lemma PickedHitIsRefused(config: Config, start: System, before: seq<Action>, s: System, id: nat, source: nat)
      returns (actions: seq<Action>, end: System)
    requires Initial(start) && Run(config, start, before, s) && LinkedTo(s.db, id, source) && Picked(s, source)
    ensures Run(config, s, actions, end) && id in end.db.jobs && end.db.jobs[id].state.Failed?
  {
    ReachableFits(config, start, before, s);
    var p, lost := PickedIsLost(config, s, id, source);
    RetiredDeliveries(s, p, config, lost);
    NothingDelivered(s, lost, id, source);
    NothingIsRefused(config, lost.db.jobs[id]);
    var rest;
    rest, end := DeliveryConcludes(config, lost, id, [], Allowed);
    OneMoreStep(config, s, DeleteExpired(p), rest, end);
    actions := [DeleteExpired(p)] + rest;
  }

  // ---- a run in which retention takes the source ----

  /** The job of the example has been published, and is the only one. */
  ghost predicate SourceReady(s: System) {
    && s.db.jobs.Keys == {0} && s.now == 0 && s.passes == map[] && s.hits == map[]
    && var job := s.db.jobs[0];
    && job.state.Succeeded? && job.operation.LatexCompilePdf? && job.project.None? && job.retainedUntil == 1000
    && job.idempotency == COMPILE.idempotency && job.inputBlob.Some? && job.inputBlob.value in s.db.blobs
    && job.completedAt.Some? && job.cacheSource.None? && (0, "pdf") in s.db.artifacts
  }

  lemma SourcePublished(config: Config) returns (actions: seq<Action>, s: System)
    requires config.maxJobs > 0 && config.maxPerUser > 0 && config.maxOutput >= 10
    ensures Run(config, START, actions, s) && SysFits(config, s) && SourceReady(s)
  {
    var delivered := AfterDelivery(config);
    DeliveryRuns(config);
    PdfIsPublishable(config);
    ReachableFits(config, START, Delivering(config), delivered);
    var rest := Conclusion(0, 0, 1, [PdfRow(config)], Allowed);
    s := FinalizerRuns(config, delivered, 0, 0, 1, [PdfRow(config)], Allowed);
    RunFits(config, delivered, rest, s);
    JobsOnlyMoveOn(config, delivered, rest, s, 0);
    PublishedIsReady(config, delivered, s);
    RunsInTurn(config, START, Delivering(config), delivered, rest, s);
    actions := Delivering(config) + rest;
  }

  lemma PublishedIsReady(config: Config, delivered: System, s: System)
    requires delivered == AfterDelivery(config) && SysFits(config, s) && NothingElse(delivered, s)
    requires 0 in s.db.jobs && s.db.jobs[0].state.Succeeded? && Continues(delivered.db.jobs[0], s.db.jobs[0])
    ensures SourceReady(s)
  {
    SourceHasItsPdf(config, s);
    assert LinksFit(s.db, 0, s.db.jobs[0]);
  }

  lemma SourceHasItsPdf(config: Config, s: System)
    requires SysFits(config, s) && 0 in s.db.jobs && s.db.jobs[0].state.Succeeded? && s.db.jobs[0].operation.LatexCompilePdf?
    ensures (0, "pdf") in s.db.artifacts
  {
    assert MeetsContract(config, s.db, 0, s.db.jobs[0].operation);
    assert Contract(LatexCompilePdf)[0] in Contract(LatexCompilePdf);
  }

  const AGAIN := Command(LatexCompilePdf, None, Idempotency(0, "", "again"), 0, false, 100, 1000)

  /** A second job with the same input waits in the queue, one second before the first is due. */
  ghost predicate AgainQueued(s: System, id: nat) {
    && id != 0 && s.db.jobs.Keys == {0, id} && s.now == 999 && s.passes == map[] && s.hits == map[]
    && s.db.jobs[id].cacheSource.None? && s.db.jobs[id].queueExpires == 1099 && Claimable(s.db.jobs[id], 999)
    && Reusable(s.db, id, 0, 999)
    && s.db.jobs[0].retainedUntil == 1000 && s.db.jobs[0].completedAt.Some? && s.db.jobs[0].cacheSource.None?
  }

  lemma AgainAdmitted(config: Config, s: System)
    requires config.maxJobs > 0 && config.maxPerUser > 0 && s.db.jobs.Keys == {0} && s.db.jobs[0].state.Succeeded?
    requires s.db.jobs[0].idempotency == COMPILE.idempotency
    ensures Enabled(config, s, Reserve(AGAIN))
  {
    assert "again"[0] == 'a';
    assert Named(s.db.jobs, AGAIN.idempotency) == {};
    assert ActiveJobs(s.db.jobs) == {} && ActiveOf(s.db.jobs, 0) == {};
  }

  lemma SomeBlob(db: Tables, digest: int, content: string) returns (blob: nat)
    ensures BlobFor(db, blob, digest, content)
  {
    if exists b :: StoredAs(db, b, digest, content) {
      blob :| StoredAs(db, blob, digest, content);
    } else {
      blob := db.nextId;
    }
  }

  lemma InputIsStored(config: Config, s: System, id: nat, digest: int, blob: nat, end: System)
    requires Enabled(config, s, StoreInput(id, digest, "", blob)) && end == Apply(config, s, StoreInput(id, digest, "", blob))
    requires forall b :: b in s.db.blobs ==> b < s.db.nextId
    ensures end == s.(db := end.db) && end.db.artifacts == s.db.artifacts
    ensures end.db.jobs
            == s.db.jobs[id := s.db.jobs[id].(state := Queued, inputBlob := Some(blob), updatedAt := s.now)]
    ensures blob in end.db.blobs && end.db.blobs[blob].digest == digest
    ensures blob in s.db.blobs || blob == s.db.nextId
    ensures forall b :: b in s.db.blobs && b != blob ==> b in end.db.blobs && end.db.blobs[b] == s.db.blobs[b]
  {
  }

  lemma AgainStored(config: Config, s: System, digest: int, blob: nat, reserved: System, end: System)
    requires SysFits(config, s) && SourceReady(s) && digest == s.db.blobs[s.db.jobs[0].inputBlob.value].digest
    requires reserved == s.(now := 999, db := AddJob(s.db, AGAIN, 999))
    requires Enabled(config, reserved, StoreInput(s.db.nextId, digest, "", blob))
    requires end == Apply(config, reserved, StoreInput(s.db.nextId, digest, "", blob))
    ensures AgainQueued(end, s.db.nextId)
  {
    InputIsStored(config, reserved, s.db.nextId, digest, blob, end);
    AgainReusable(end.db, s.db.nextId);
  }

  lemma AgainReusable(db: Tables, id: nat)
    requires id != 0 && 0 in db.jobs && id in db.jobs && db.jobs[0].state.Succeeded? && (0, "pdf") in db.artifacts
    requires db.jobs[0].operation == db.jobs[id].operation && SameInput(db, db.jobs[0], db.jobs[id])
    requires db.jobs[0].project == db.jobs[id].project && db.jobs[0].retainedUntil == 1000
    requires db.jobs[0].idempotency.requester == db.jobs[id].idempotency.requester
    ensures Reusable(db, id, 0, 999)
  {
  }

  lemma AgainIsQueued(config: Config, s: System) returns (actions: seq<Action>, end: System)
    requires config.maxJobs > 0 && config.maxPerUser > 0 && SysFits(config, s) && SourceReady(s)
    ensures Run(config, s, actions, end) && AgainQueued(end, s.db.nextId)
  {
    var later := s.(now := 999);
    var reserved := later.(db := AddJob(s.db, AGAIN, 999));
    var digest := s.db.blobs[s.db.jobs[0].inputBlob.value].digest;
    var blob := SomeBlob(reserved.db, digest, "");
    AgainAdmitted(config, later);
    end := Apply(config, reserved, StoreInput(s.db.nextId, digest, "", blob));
    AgainStored(config, s, digest, blob, reserved, end);
    actions := [Tick(999), Reserve(AGAIN), StoreInput(s.db.nextId, digest, "", blob)];
    ThreeSteps(config, s, Tick(999), later, Reserve(AGAIN), reserved, StoreInput(s.db.nextId, digest, "", blob), end);
  }

  /** The claim has read the first job's result at 999, and a pass has begun at 1000. */
  ghost predicate FoundAndAged(s: System, aged: System, id: nat) {
    && aged.hits == map[0 := Hit(id, 0, 999)] && aged.passes == map[0 := Pass(1000, None)] && aged.now == 1000
    && aged.db.jobs == s.db.jobs
  }

  lemma FoundThenAged(config: Config, s: System, id: nat) returns (actions: seq<Action>, aged: System)
    requires AgainQueued(s, id)
    ensures Run(config, s, actions, aged) && FoundAndAged(s, aged, id)
  {
    var found := s.(hits := map[0 := Hit(id, 0, 999)]);
    var later := found.(now := 1000);
    aged := later.(db := Aged(s.db, {}, 1000), passes := map[0 := Pass(1000, None)]);
    NobodyAges(s, id);
    PassBegins(config, later, aged);
    actions := [FindHit(0, id, 0), Tick(1), Maintain(0, {})];
    ThreeSteps(config, s, FindHit(0, id, 0), found, Tick(1), later, Maintain(0, {}), aged);
  }

  lemma ChosenThenLinked(config: Config, s: System, aged: System, id: nat) returns (actions: seq<Action>, end: System)
    requires AgainQueued(s, id) && FoundAndAged(s, aged, id)
    ensures Run(config, aged, actions, end) && LinkedTo(end.db, id, 0) && Picked(end, 0)
  {
    var chosen := aged.(passes := map[0 := Pass(1000, Some(DeletableJobs(aged.db, 1000)))]);
    assert 0 in DeletableJobs(aged.db, 1000);
    end := Apply(config, chosen, LinkHit(0));
    assert end.passes == chosen.passes && 0 in end.passes[0].chosen.value;
    actions := [ChooseExpired(0), LinkHit(0)];
    TwoSteps(config, aged, ChooseExpired(0), chosen, LinkHit(0), end);
  }

  lemma NobodyAges(s: System, id: nat)
    requires AgainQueued(s, id)
    ensures Aged(s.db, {}, 1000).jobs == s.db.jobs
  {
  }

  /** The claim reads the first job's result, a pass chooses that job, and the link commits. */
  lemma HitIsChosen(config: Config, s: System, id: nat) returns (actions: seq<Action>, end: System)
    requires AgainQueued(s, id)
    ensures Run(config, s, actions, end) && LinkedTo(end.db, id, 0) && Picked(end, 0)
  {
    var first, aged := FoundThenAged(config, s, id);
    var second;
    second, end := ChosenThenLinked(config, s, aged, id);
    RunsInTurn(config, s, first, aged, second, end);
    actions := first + second;
  }

  lemma TwoSteps(config: Config, s: System, a: Action, s1: System, b: Action, s2: System)
    requires Enabled(config, s, a) && s1 == Apply(config, s, a) && Enabled(config, s1, b) && s2 == Apply(config, s1, b)
    ensures Run(config, s, [a, b], s2)
  {
    assert Run(config, s2, [], s2);
    assert [b][1..] == [] && [a, b][1..] == [b];
    assert Run(config, s1, [b], s2);
  }

  /** From empty tables: a document is published, its result is found for the same input just before
    it is due, a pass chooses it, the link commits, and the second job fails with nothing to publish. */
  lemma RetentionTakesTheSource(config: Config) returns (actions: seq<Action>, end: System, id: nat)
    requires config.maxJobs > 0 && config.maxPerUser > 0 && config.maxOutput >= 10
    ensures Initial(START) && Run(config, START, actions, end)
    ensures id in end.db.jobs && end.db.jobs[id].state.Failed?
  {
    var s;
    actions, s := SourcePublished(config);
    id := s.db.nextId;
    var more, queued := AgainIsQueued(config, s);
    RunFits(config, s, more, queued);
    RunsInTurn(config, START, actions, s, more, queued);
    actions := actions + more;
    var race, linked := HitIsChosen(config, queued, id);
    RunsInTurn(config, START, actions, queued, race, linked);
    actions := actions + race;
    var rest;
    rest, end := PickedHitIsRefused(config, START, actions, linked, id, 0);
    RunsInTurn(config, START, actions, linked, rest, end);
    actions := actions + rest;
  }
}
