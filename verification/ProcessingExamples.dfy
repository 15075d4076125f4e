/** A document that a worker delivers: published by the finalizer that comes in time, refused
  by the one that comes after maintenance has expired its file. */
module ProcessingExamples {
  import opened Wrappers
  import opened ProcessingModel
  import opened ProcessingTables
  import opened ProcessingResults
  import opened ProcessingInvariant
  import opened ProcessingFinalizers
  import opened ProcessingRuns
  import opened ProcessingProofs
  import opened ProcessingTheorems
  import opened ProcessingExpiry
  import opened ProcessingRefusals

  const SMALL_PDF := "%PDF-%%EOF"

  const START := System(Tables(map[], {}, map[], map[], map[], {}, 0), 0, map[], map[], map[], [])

  const COMPILE := Command(LatexCompilePdf, None, Idempotency(0, "", ""), 0, false, 100, 1000)

  /** From the reservation of job 0 to the delivery of its document. */
  function Delivering(config: Config): seq<Action> {
    [Reserve(COMPILE), StoreInput(0, 0, "", 1), Claim(0, 100, 10),
     IssueUpload(0, "pdf", "application/pdf", "a.pdf", 10, config.digestOf(SMALL_PDF), 10),
     Upload(4, SMALL_PDF, 5), Complete(0)]
  }

  const QUEUED := NewJob(COMPILE, 0).(state := Queued, inputBlob := Some(1))

  const RUNNING := QUEUED.(state := Running, attempts := 1, claim := Some(2), claimExpires := 100)

  const INPUT := Transfer(0, 1, false, "input", "", "", 0, 0, Some(1), Issued, 10)

  function Document(config: Config): Transfer {
    Transfer(0, 1, true, "pdf", "application/pdf", "a.pdf", 10, config.digestOf(SMALL_PDF), None, Issued, 10)
  }

  function AfterReserve(): System {
    START.(db := START.db.(jobs := map[0 := NewJob(COMPILE, 0)], nextId := 1))
  }

  function AfterInput(): System {
    START.(db := START.db.(jobs := map[0 := QUEUED], blobs := map[1 := Blob(0, "")], nextId := 2))
  }

  function AfterClaim(): System {
    START.(db := AfterInput().db.(jobs := map[0 := RUNNING], transfers := map[3 := INPUT], nextId := 4))
  }

  function AfterIssue(config: Config): System {
    START.(db := AfterClaim().db.(transfers := map[3 := INPUT, 4 := Document(config)], nextId := 5))
  }

  function AfterUpload(config: Config): System {
    START.(db := AfterClaim().db.(
      transfers := map[3 := INPUT, 4 := Document(config).(state := Uploaded, blob := Some(5))],
      blobs := map[1 := Blob(0, ""), 5 := Blob(config.digestOf(SMALL_PDF), SMALL_PDF)], nextId := 6))
  }

  function AfterDelivery(config: Config): System {
    START.(db := AfterUpload(config).db.(
      jobs := map[0 := RUNNING.(state := Finalizing, claim := None)], delivered := {(0, 1)}))
  }

  lemma JobIsQueued(config: Config)
    requires config.maxJobs > 0 && config.maxPerUser > 0
    ensures Enabled(config, START, Reserve(COMPILE)) && Apply(config, START, Reserve(COMPILE)) == AfterReserve()
    ensures Enabled(config, AfterReserve(), StoreInput(0, 0, "", 1))
    ensures Apply(config, AfterReserve(), StoreInput(0, 0, "", 1)) == AfterInput()
  {
    assert ActiveJobs(START.db.jobs) == {} && ActiveOf(START.db.jobs, 0) == {};
  }

  lemma JobIsClaimed(config: Config)
    ensures Enabled(config, AfterInput(), Claim(0, 100, 10)) && Apply(config, AfterInput(), Claim(0, 100, 10)) == AfterClaim()
    ensures var issue := Delivering(config)[3];
            Enabled(config, AfterClaim(), issue) && Apply(config, AfterClaim(), issue) == AfterIssue(config)
  {
    assert Apply(config, AfterInput(), Claim(0, 100, 10)).db.jobs == map[0 := RUNNING];
  }

  lemma DocumentIsUploaded(config: Config)
    ensures var s := AfterIssue(config);
            Enabled(config, s, Upload(4, SMALL_PDF, 5)) && Apply(config, s, Upload(4, SMALL_PDF, 5)) == AfterUpload(config)
  {
  }

  lemma DocumentIsDelivered(config: Config)
    ensures var s := AfterUpload(config);
            Enabled(config, s, Complete(0)) && Apply(config, s, Complete(0)) == AfterDelivery(config)
  {
  }

  lemma ClaimRuns(config: Config)
    requires config.maxJobs > 0 && config.maxPerUser > 0
    ensures Run(config, START, [Reserve(COMPILE), StoreInput(0, 0, "", 1), Claim(0, 100, 10)], AfterClaim())
  {
    JobIsQueued(config);
    JobIsClaimed(config);
    ThreeSteps(config, START, Reserve(COMPILE), AfterReserve(), StoreInput(0, 0, "", 1), AfterInput(),
               Claim(0, 100, 10), AfterClaim());
  }

  lemma UploadRuns(config: Config)
    ensures Run(config, AfterClaim(), Delivering(config)[3..], AfterDelivery(config))
  {
    var last := Delivering(config)[3..];
    JobIsClaimed(config);
    DocumentIsUploaded(config);
    DocumentIsDelivered(config);
    ThreeSteps(config, AfterClaim(), last[0], AfterIssue(config), last[1], AfterUpload(config),
               last[2], AfterDelivery(config));
    assert last == [last[0], last[1], last[2]];
  }

  lemma DeliveryRuns(config: Config)
    requires config.maxJobs > 0 && config.maxPerUser > 0
    ensures Run(config, START, Delivering(config), AfterDelivery(config))
  {
    var first := [Reserve(COMPILE), StoreInput(0, 0, "", 1), Claim(0, 100, 10)];
    ClaimRuns(config);
    UploadRuns(config);
    RunsInTurn(config, START, first, AfterClaim(), Delivering(config)[3..], AfterDelivery(config));
    assert first + Delivering(config)[3..] == Delivering(config);
  }

  function PdfRow(config: Config): StagedArtifact {
    StagedArtifact(Some(4), 5, "pdf", "application/pdf", "a.pdf", 10, config.digestOf(SMALL_PDF), SMALL_PDF)
  }

  lemma PdfIsValid(config: Config)
    requires config.maxOutput >= 10
    ensures SetOk(config, LatexCompilePdf, [PdfRow(config)]) && ValidPdf(SMALL_PDF)
  {
    var contract := Contract(LatexCompilePdf);
    var row := PdfRow(config);
    ContractRolesDistinct(LatexCompilePdf, contract[0]);
    assert [row][0].role == "pdf";
    assert EofAt(SMALL_PDF, 5);
    assert row.filename[1..] == ".pdf";
    forall c | c in contract && c.required
      ensures HasRole([row], c.role)
    {
      assert c == contract[0];
    }
  }

  lemma PdfIsPublishable(config: Config)
    requires config.maxOutput >= 10
    ensures var s := AfterDelivery(config);
            Delivery(s.db, 0, [PdfRow(config)]) && Judged(config, s.db.jobs[0], [PdfRow(config)], Allowed) == Publish
  {
    PdfIsValid(config);
    assert [PdfRow(config)][0] == PdfRow(config) && [PdfRow(config)][1..] == [];
    assert ContentOf([PdfRow(config)], "pdf") == Some(SMALL_PDF) && ContentOf([PdfRow(config)], "log") == None;
    assert forall t :: DeliveredFile(AfterDelivery(config).db, 0, t) <==> t == 4;
  }

  lemma PdfLastsUntilTen(config: Config, now: int)
    ensures RequiredFilesLast(AfterDelivery(config).db, 0, now) <==> now < 10
  {
    assert DeliveredFile(AfterDelivery(config).db, 0, 4);
    assert Contract(LatexCompilePdf)[0] in Contract(LatexCompilePdf);
    assert RequiredRole(LatexCompilePdf, "pdf");
  }

  /** The same delivery, with maintenance and then a finalizer at any later time: the document is
    published before time 10, and the job fails from time 10 on. */
  lemma DeliveredInTimeOrRefused(config: Config, time: nat) returns (actions: seq<Action>, end: System)
    requires config.maxJobs > 0 && config.maxPerUser > 0 && config.maxOutput >= 10
    ensures Initial(START) && Run(config, START, actions, end) && 0 in end.db.jobs
    ensures if time < 10 then end.db.jobs[0].state.Succeeded? else end.db.jobs[0].state.Failed?
  {
    var delivered := AfterDelivery(config);
    DeliveryRuns(config);
    ReachableFits(config, START, Delivering(config), delivered);
    var rest;
    rest, end := MaintainedAndFinalized(config, delivered, time);
    actions := Delivering(config) + rest;
    RunsInTurn(config, START, Delivering(config), delivered, rest, end);
  }

  lemma MaintainedAndFinalized(config: Config, delivered: System, time: nat) returns (actions: seq<Action>, end: System)
    requires delivered == AfterDelivery(config) && SysFits(config, delivered) && config.maxOutput >= 10
    ensures Run(config, delivered, actions, end) && 0 in end.db.jobs
    ensures if time < 10 then end.db.jobs[0].state.Succeeded? else end.db.jobs[0].state.Failed?
  {
    PdfIsPublishable(config);
    PdfLastsUntilTen(config, time);
    assert delivered.db.jobs[0].state.Finalizing? && delivered.db.jobs[0].token.None?;
    actions, end := LaterFinalized(config, delivered, 0, time, [PdfRow(config)]);
  }

  /** A free delivered job after maintenance at a later time, taken to its end. */
  lemma LaterFinalized(config: Config, delivered: System, id: nat, time: nat, staged: seq<StagedArtifact>)
      returns (actions: seq<Action>, end: System)
    requires SysFits(config, delivered) && delivered.finalizers == map[] && delivered.passes == map[]
    requires Ready(delivered, id, staged) && Judged(config, delivered.db.jobs[id], staged, Allowed) == Publish
    ensures Run(config, delivered, actions, end) && id in end.db.jobs
    ensures if RequiredFilesLast(delivered.db, id, delivered.now + time) then end.db.jobs[id].state.Succeeded?
            else end.db.jobs[id].state.Failed?
  {
    var later := delivered.(now := delivered.now + time);
    var maintained := later.(db := Maintained(later.db, {}, later.now));
    var after := AfterMaintenance(config, delivered.db, id, later.now, maintained.db, staged);
    var rest := Conclusion(0, id, 1, after, Allowed);
    end := FinalizerRuns(config, maintained, 0, id, 1, after, Allowed);
    WholePassRuns(config, later, maintained);
    RunsInTurn(config, later, WholePass(0), maintained, rest, end);
    WaitThen(config, delivered, time, WholePass(0) + rest, end);
    actions := [Tick(time)] + (WholePass(0) + rest);
  }

  /** A maintenance pass whose statements follow one another at once. */
  function WholePass(p: nat): seq<Action> {
    [Maintain(p, {}), ChooseExpired(p), DeleteExpired(p)]
  }

  lemma WholePassRuns(config: Config, s: System, s': System)
    requires s.passes == map[] && s' == s.(db := Maintained(s.db, {}, s.now))
    ensures Run(config, s, WholePass(0), s')
  {
    var aged := s.(db := Aged(s.db, {}, s.now), passes := map[0 := Pass(s.now, None)]);
    var chosen := aged.(passes := map[0 := Pass(s.now, Some(DeletableJobs(aged.db, s.now)))]);
    PassBegins(config, s, aged);
    PassEnds(config, aged, chosen, s');
    ThreeSteps(config, s, Maintain(0, {}), aged, ChooseExpired(0), chosen, DeleteExpired(0), s');
  }

  lemma PassBegins(config: Config, s: System, aged: System)
    requires s.passes == map[] && aged == s.(db := Aged(s.db, {}, s.now), passes := map[0 := Pass(s.now, None)])
    ensures Enabled(config, s, Maintain(0, {})) && Apply(config, s, Maintain(0, {})) == aged
  {
    NothingRequeued(s.db.nextId);
    assert RequeuedIn(s.db, {}, s.now) == {} && s.notes + [] == s.notes;
  }

  lemma PassEnds(config: Config, aged: System, chosen: System, done: System)
    requires aged.passes == map[0 := Pass(aged.now, None)]
    requires chosen == aged.(passes := map[0 := Pass(aged.now, Some(DeletableJobs(aged.db, aged.now)))])
    requires done == aged.(db := Retired(aged.db, DeletableJobs(aged.db, aged.now)), passes := map[])
    ensures Enabled(config, aged, ChooseExpired(0)) && Apply(config, aged, ChooseExpired(0)) == chosen
    ensures Enabled(config, chosen, DeleteExpired(0)) && Apply(config, chosen, DeleteExpired(0)) == done
  {
  }

  lemma NothingRequeued(below: nat)
    ensures RequeueNotes({}, below) == []
  {
  }

  lemma AfterMaintenance(config: Config, db: Tables, id: nat, now: int, db': Tables, staged: seq<StagedArtifact>)
      returns (after: seq<StagedArtifact>)
    requires TablesFit(config, db) && id in db.jobs && db.jobs[id].state.Finalizing? && db.jobs[id].cacheSource.None?
    requires db' == Maintained(db, {}, now) && Delivery(db, id, staged)
    requires Judged(config, db.jobs[id], staged, Allowed) == Publish
    ensures id in db'.jobs && db'.jobs[id] == db.jobs[id] && Delivery(db', id, after)
    ensures Judged(config, db'.jobs[id], after, Allowed)
            == (if RequiredFilesLast(db, id, now) then Publish else Refuse(ArtifactSet))
  {
    FinalizingMaintained(config, db, {}, now, id);
    after := DeliveryExists(db', id);
    DeliveryAfterMaintenance(config, db, {}, now, id, staged, after, Allowed);
  }

  lemma {:induction false} RunsInTurn(config: Config, start: System, first: seq<Action>, s: System, then_: seq<Action>, end: System)
    requires Run(config, start, first, s) && Run(config, s, then_, end)
    ensures Run(config, start, first + then_, end)
    decreases |first|
  {
    if first == [] {
      assert first + then_ == then_;
    } else {
      assert (first + then_)[1..] == first[1..] + then_;
      RunsInTurn(config, Apply(config, start, first[0]), first[1..], s, then_, end);
    }
  }
}
