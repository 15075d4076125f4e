/** The verdict on a staged result: what it means for the files, row by row, and the loop that
  reaches it (backend/src/document_processing/finalization.rs). */
module ProcessingVerdicts {
  import opened Wrappers
  import opened ProcessingModel
  import opened ProcessingTables
  import opened ProcessingResults

  // ---- what a verdict means ----

  /** The row describes its file truly, and the file is of the kind and within the size. */
  predicate FileIs(config: Config, row: StagedArtifact, mediaType: string, suffix: string, limit: int) {
    && row.size == |row.content| && row.digest == config.digestOf(row.content) && 0 < row.size <= limit
    && row.mediaType == mediaType
    && |suffix| <= |row.filename| && row.filename[|row.filename| - |suffix|..] == suffix
  }

  predicate Expected(config: Config, operation: Operation, row: StagedArtifact) {
    match operation
    case LatexCompilePdf =>
      || (row.role == "pdf" && FileIs(config, row, "application/pdf", ".pdf", config.maxOutput))
      || (row.role == "log" && FileIs(config, row, "text/plain", ".log", config.maxDiagnostic))
    case TypstExportPptx =>
      || (row.role == "pptx"
          && FileIs(config, row, "application/vnd.openxmlformats-officedocument.presentationml.presentation", ".pptx",
                    config.maxOutput))
      || (row.role == "report" && FileIs(config, row, "application/json", ".json", config.maxDiagnostic))
    case PptxImportTypst =>
      || (row.role == "workspace"
          && FileIs(config, row, "application/vnd.toss.workspace-bundle+zip", ".zip", config.maxOutput))
      || (row.role == "report" && FileIs(config, row, "application/json", ".json", config.maxDiagnostic))
  }

  ghost predicate Staged(staged: seq<StagedArtifact>, role: string) {
    exists row :: row in staged && row.role == role
  }

  /** Nothing but expected files, each role once, and the required ones. */
  ghost predicate CompleteSet(config: Config, operation: Operation, staged: seq<StagedArtifact>) {
    && (forall row :: row in staged ==> Expected(config, operation, row))
    && (forall i, j :: 0 <= i < j < |staged| ==> staged[i].role != staged[j].role)
    && match operation
       case LatexCompilePdf => Staged(staged, "pdf")
       case TypstExportPptx => Staged(staged, "pptx") && Staged(staged, "report")
       case PptxImportTypst => Staged(staged, "workspace") && Staged(staged, "report")
  }

  /** A PDF header, at least eight characters, and an end mark among the last 1024. */
  predicate IsPdf(content: string) {
    && |content| >= 8 && content[..5] == "%PDF-"
    && exists i: nat :: i < |content| <= i + 1024 && EndMark(content, i)
  }

  predicate EndMark(content: string, i: nat) {
    i + 5 <= |content| && content[i..i + 5] == "%%EOF"
  }

  /** Every file staged for the role passes. */
  ghost predicate Pass(staged: seq<StagedArtifact>, role: string, good: string -> bool) {
    forall row :: row in staged && row.role == role ==> good(row.content)
  }

  /** The verdict in the order of the checks: access, the set, then the formats of the operation. */
  ghost predicate VerdictOutcome(config: Config, job: Job, staged: seq<StagedArtifact>, access: Access, verdict: Verdict) {
    if job.project.Some? && access == Denied then verdict == Refuse(AccessRevoked)
    else if job.project.Some? && access == Unavailable then verdict == RetryLater
    else if !CompleteSet(config, job.operation, staged) then verdict == Refuse(ArtifactSet)
    else
      match job.operation
      case LatexCompilePdf =>
        if !Pass(staged, "pdf", IsPdf) then verdict == Refuse(PdfInvalid)
        else if !Pass(staged, "log", config.isUtf8) then verdict == Refuse(DiagnosticInvalid)
        else verdict == Publish
      case TypstExportPptx =>
        if !Pass(staged, "pptx", config.isPptx) then verdict == Refuse(PptxInvalid)
        else if !Pass(staged, "report", content => config.reportSchema(content) == Some("pptx-export-report/v1"))
        then verdict == Refuse(DiagnosticInvalid)
        else verdict == Publish
      case PptxImportTypst =>
        if !Pass(staged, "workspace", config.isWorkspace) then verdict == Refuse(WorkspaceInvalid)
        else if !Pass(staged, "report", content => config.reportSchema(content) == Some("pptx-import-report/v1"))
        then verdict == Refuse(DiagnosticInvalid)
        else if !job.namesProject then verdict == Refuse(WorkspaceInvalid)
        else verdict == Publish
  }

  lemma TwoEntries(contract: seq<ArtifactContract>, a: ArtifactContract, b: ArtifactContract, role: string)
    requires contract == [a, b]
    ensures Lookup(contract, role) == if a.role == role then Some(a) else if b.role == role then Some(b) else None
  {
    assert contract[1..] == [b] && contract[1..][1..] == [];
  }

  lemma EntryIs(config: Config, row: StagedArtifact, entry: ArtifactContract)
    ensures FileIs(config, row, entry.mediaType, entry.suffix, SizeLimit(config, entry.size))
            <==> (row.size == |row.content| && row.digest == config.digestOf(row.content)
                  && 0 < row.size <= SizeLimit(config, entry.size)
                  && row.mediaType == entry.mediaType && EndsWith(row.filename, entry.suffix))
  {
  }

  /** A row fits the contract of its operation exactly if it is expected. */
  lemma RowIsExpected(config: Config, operation: Operation, row: StagedArtifact)
    ensures RowOk(config, operation, row) <==> Expected(config, operation, row)
  {
    var contract := Contract(operation);
    TwoEntries(contract, contract[0], contract[1], row.role);
    EntryIs(config, row, contract[0]);
    EntryIs(config, row, contract[1]);
    RolesDiffer(operation);
  }

  lemma RolesDiffer(operation: Operation)
    ensures Contract(operation)[0].role != Contract(operation)[1].role
  {
    assert Contract(operation)[0].role[0] != Contract(operation)[1].role[0];
  }

  lemma RequiredAreStaged(operation: Operation, staged: seq<StagedArtifact>)
    ensures (forall c :: c in Contract(operation) && c.required ==> HasRole(staged, c.role))
            <==> match operation
                 case LatexCompilePdf => HasRole(staged, "pdf")
                 case TypstExportPptx => HasRole(staged, "pptx") && HasRole(staged, "report")
                 case PptxImportTypst => HasRole(staged, "workspace") && HasRole(staged, "report")
  {
    var contract := Contract(operation);
    assert forall c :: c in contract <==> c == contract[0] || c == contract[1];
  }

  lemma RoleIsStaged(staged: seq<StagedArtifact>, role: string)
    ensures HasRole(staged, role) <==> Staged(staged, role)
  {
    if HasRole(staged, role) {
      var i :| 0 <= i < |staged| && staged[i].role == role;
      assert staged[i] in staged;
    }
  }

  lemma RowsAreExpected(config: Config, operation: Operation, staged: seq<StagedArtifact>)
    ensures (forall i :: 0 <= i < |staged| ==> RowOk(config, operation, staged[i]))
            <==> forall row :: row in staged ==> Expected(config, operation, row)
  {
    forall row { RowIsExpected(config, operation, row); }
    assert forall i :: 0 <= i < |staged| ==> staged[i] in staged;
  }

  lemma SetIsComplete(config: Config, operation: Operation, staged: seq<StagedArtifact>)
    ensures SetOk(config, operation, staged) <==> CompleteSet(config, operation, staged)
  {
    RowsAreExpected(config, operation, staged);
    RequiredAreStaged(operation, staged);
    RoleIsStaged(staged, "pdf");
    RoleIsStaged(staged, "pptx");
    RoleIsStaged(staged, "workspace");
    RoleIsStaged(staged, "report");
  }

  /** With distinct roles the content of a role is that of its one row. */
  lemma ContentPasses(staged: seq<StagedArtifact>, role: string, good: string -> bool)
    requires forall i, j :: 0 <= i < j < |staged| ==> staged[i].role != staged[j].role
    ensures Pass(staged, role, good) <==> (ContentOf(staged, role).Some? ==> good(ContentOf(staged, role).value))
  {
    var content := ContentOf(staged, role);
    if content.Some? {
      var k :| 0 <= k < |staged| && staged[k].role == role && staged[k].content == content.value;
      assert staged[k] in staged;
      forall row | row in staged && row.role == role
        ensures row == staged[k]
      {
        var i :| 0 <= i < |staged| && staged[i] == row;
      }
    } else {
      forall row | row in staged
        ensures row.role != role
      {
        var i :| 0 <= i < |staged| && staged[i] == row;
      }
    }
  }

  lemma PdfMeans(content: string)
    ensures ValidPdf(content) <==> IsPdf(content)
  {
    if |content| >= 8 {
      forall i: nat | i <= |content| - 5
        ensures EofAt(content, i) <==> EndMark(content, i)
      {
      }
    }
  }

  lemma CompleteHas(config: Config, operation: Operation, staged: seq<StagedArtifact>, role: string)
    requires CompleteSet(config, operation, staged) && Staged(staged, role)
    ensures ContentOf(staged, role).Some?
  {
    var row :| row in staged && row.role == role;
    var i :| 0 <= i < |staged| && staged[i] == row;
    assert HasRole(staged, role);
  }

  lemma FormatsMean(config: Config, job: Job, staged: seq<StagedArtifact>)
    requires CompleteSet(config, job.operation, staged)
    ensures VerdictOutcome(config, job.(project := None), staged, Allowed,
                           if FormatFailure(config, job, staged).Some? then Refuse(FormatFailure(config, job, staged).value)
                           else Publish)
  {
    match job.operation
    case LatexCompilePdf => PdfFormats(config, job, staged);
    case TypstExportPptx => ExportFormats(config, job, staged);
    case PptxImportTypst => WorkspaceFormats(config, job, staged);
  }

  lemma PdfFormats(config: Config, job: Job, staged: seq<StagedArtifact>)
    requires job.operation == LatexCompilePdf && CompleteSet(config, LatexCompilePdf, staged)
    ensures PdfFailure(config, ContentOf(staged, "pdf"), ContentOf(staged, "log"))
            == (if !Pass(staged, "pdf", IsPdf) then Some(PdfInvalid)
                else if !Pass(staged, "log", config.isUtf8) then Some(DiagnosticInvalid)
                else None)
  {
    CompleteHas(config, LatexCompilePdf, staged, "pdf");
    ContentPasses(staged, "pdf", IsPdf);
    ContentPasses(staged, "log", config.isUtf8);
    PdfMeans(ContentOf(staged, "pdf").value);
  }

  lemma ExportFormats(config: Config, job: Job, staged: seq<StagedArtifact>)
    requires job.operation == TypstExportPptx && CompleteSet(config, TypstExportPptx, staged)
    ensures PptxFailure(config, ContentOf(staged, "pptx"), ContentOf(staged, "report"))
            == (if !Pass(staged, "pptx", config.isPptx) then Some(PptxInvalid)
                else if !Pass(staged, "report", content => config.reportSchema(content) == Some("pptx-export-report/v1"))
                then Some(DiagnosticInvalid)
                else None)
  {
    CompleteHas(config, TypstExportPptx, staged, "pptx");
    CompleteHas(config, TypstExportPptx, staged, "report");
    ContentPasses(staged, "pptx", config.isPptx);
    ContentPasses(staged, "report", content => config.reportSchema(content) == Some("pptx-export-report/v1"));
  }

  lemma WorkspaceFormats(config: Config, job: Job, staged: seq<StagedArtifact>)
    requires job.operation == PptxImportTypst && CompleteSet(config, PptxImportTypst, staged)
    ensures ImportFailure(config, ContentOf(staged, "workspace"), ContentOf(staged, "report"), job.namesProject)
            == (if !Pass(staged, "workspace", config.isWorkspace) then Some(WorkspaceInvalid)
                else if !Pass(staged, "report", content => config.reportSchema(content) == Some("pptx-import-report/v1"))
                then Some(DiagnosticInvalid)
                else if !job.namesProject then Some(WorkspaceInvalid)
                else None)
  {
    CompleteHas(config, PptxImportTypst, staged, "workspace");
    CompleteHas(config, PptxImportTypst, staged, "report");
    ContentPasses(staged, "workspace", config.isWorkspace);
    ContentPasses(staged, "report", content => config.reportSchema(content) == Some("pptx-import-report/v1"));
  }

  /** The verdict, row by row: the first check that fails names the refusal, and nothing but a
    complete set of files in their formats, with access where a project is named, is published. */
  lemma JudgedMeans(config: Config, job: Job, staged: seq<StagedArtifact>, access: Access)
    ensures VerdictOutcome(config, job, staged, access, Judged(config, job, staged, access))
  {
    SetIsComplete(config, job.operation, staged);
    if CompleteSet(config, job.operation, staged) {
      FormatsMean(config, job, staged);
    }
  }

  // ---- the loop ----

  function RolesBefore(staged: seq<StagedArtifact>, n: nat): set<string>
    requires n <= |staged|
  {
    set i | 0 <= i < n :: staged[i].role
  }

  /** The first `n` rows fit and repeat no role. */
  predicate GoodBefore(config: Config, operation: Operation, staged: seq<StagedArtifact>, n: nat)
    requires n <= |staged|
  {
    && (forall i :: 0 <= i < n ==> RowOk(config, operation, staged[i]))
    && (forall i, j :: 0 <= i < j < n ==> staged[i].role != staged[j].role)
  }

  lemma RoleIsNew(staged: seq<StagedArtifact>, n: nat)
    requires n < |staged|
    ensures RolesBefore(staged, n + 1) == RolesBefore(staged, n) + {staged[n].role}
    ensures staged[n].role in RolesBefore(staged, n) <==> exists i :: 0 <= i < n && staged[i].role == staged[n].role
  {
  }

  /** The rows in turn: the roles seen so far, or a stop at the first bad or repeated row. */
  method CollectRoles(config: Config, operation: Operation, staged: seq<StagedArtifact>)
      returns (ok: bool, roles: set<string>)
    ensures ok <==> GoodBefore(config, operation, staged, |staged|)
    ensures ok ==> roles == RolesBefore(staged, |staged|)
  {
    roles := {};
    for i := 0 to |staged|
      invariant GoodBefore(config, operation, staged, i) && roles == RolesBefore(staged, i)
    {
      var good := CheckRow(config, operation, staged[i]);
      RoleIsNew(staged, i);
      if !good || staged[i].role in roles {
        return false, roles;
      }
      roles := roles + {staged[i].role};
    }
    ok := true;
  }

  method CheckRow(config: Config, operation: Operation, artifact: StagedArtifact) returns (good: bool)
    ensures good <==> RowOk(config, operation, artifact)
  {
    var entry := Lookup(Contract(operation), artifact.role);
    if entry.None? {
      return false;
    }
    good := !(artifact.size != |artifact.content| || artifact.digest != config.digestOf(artifact.content)
              || artifact.size <= 0 || artifact.size > SizeLimit(config, entry.value.size)
              || artifact.mediaType != entry.value.mediaType || !EndsWith(artifact.filename, entry.value.suffix));
  }

  /** The validation of one staged result. */
  method ValidateFinalization(config: Config, job: Job, staged: seq<StagedArtifact>, access: Access)
      returns (verdict: Verdict)
    ensures verdict == Judged(config, job, staged, access)
    ensures VerdictOutcome(config, job, staged, access, verdict)
    ensures verdict.Publish? ==> SetOk(config, job.operation, staged)
  {
    JudgedMeans(config, job, staged, access);
    if job.project.Some? && access.Denied? {
      return Refuse(AccessRevoked);
    }
    if job.project.Some? && access.Unavailable? {
      return RetryLater;
    }
    var ok, roles := CollectRoles(config, job.operation, staged);
    if !ok {
      return Refuse(ArtifactSet);
    }
    assert forall role :: role in roles <==> HasRole(staged, role);
    var contract := Contract(job.operation);
    for i := 0 to |contract|
      invariant forall k :: 0 <= k < i ==> contract[k].required ==> contract[k].role in roles
    {
      if contract[i].required && contract[i].role !in roles {
        assert contract[i] in contract;
        return Refuse(ArtifactSet);
      }
    }
    assert SetOk(config, job.operation, staged);
    var failure := FormatFailure(config, job, staged);
    verdict := if failure.Some? then Refuse(failure.value) else Publish;
  }
}
