/** Validation of a staged result against its operation's contract, and what publication of a
  validated result leaves behind (backend/src/document_processing/finalization.rs). */
module ProcessingResults {
  import opened Wrappers
  import opened ProcessingModel
  import opened ProcessingTables

  datatype Failure = AccessRevoked | ArtifactSet | PdfInvalid | PptxInvalid | DiagnosticInvalid | WorkspaceInvalid

  /** The answer of the project access check made just before publication. */
  datatype Access = Allowed | Denied | Unavailable

  datatype Verdict = Publish | Refuse(failure: Failure) | RetryLater

  const PDF_EOF_SCAN_BYTES: nat := 1024

  function SizeLimit(config: Config, size: SizeClass): int {
    match size
    case Output => config.maxOutput
    case Diagnostic => config.maxDiagnostic
  }

  predicate EndsWith(s: string, suffix: string) {
    |suffix| <= |s| && s[|s| - |suffix|..] == suffix
  }

  predicate RowOk(config: Config, operation: Operation, row: StagedArtifact) {
    var entry := Lookup(Contract(operation), row.role);
    && entry.Some?
    && row.size == |row.content| && row.digest == config.digestOf(row.content)
    && 0 < row.size <= SizeLimit(config, entry.value.size)
    && row.mediaType == entry.value.mediaType && EndsWith(row.filename, entry.value.suffix)
  }

  predicate HasRole(staged: seq<StagedArtifact>, role: string) {
    exists i :: 0 <= i < |staged| && staged[i].role == role
  }

  /** Every row fits its contract entry, no role is repeated and no required role is missing. */
  predicate SetOk(config: Config, operation: Operation, staged: seq<StagedArtifact>) {
    && (forall i :: 0 <= i < |staged| ==> RowOk(config, operation, staged[i]))
    && (forall i, j :: 0 <= i < j < |staged| ==> staged[i].role != staged[j].role)
    && (forall c :: c in Contract(operation) && c.required ==> HasRole(staged, c.role))
  }

  predicate ValidPdf(content: string) {
    && |content| >= 8 && content[..5] == "%PDF-"
    && var start := if |content| < PDF_EOF_SCAN_BYTES then 0 else |content| - PDF_EOF_SCAN_BYTES;
       exists i :: start <= i <= |content| - 5 && EofAt(content, i)
  }

  predicate EofAt(content: string, i: nat)
    requires i + 5 <= |content|
  {
    content[i..i + 5] == "%%EOF"
  }

  /** The content of the file staged for a role, if there is one. */
  function ContentOf(staged: seq<StagedArtifact>, role: string): (content: Option<string>)
    ensures content.Some? <==> HasRole(staged, role)
    ensures content.Some? ==> exists i :: 0 <= i < |staged| && staged[i].role == role && staged[i].content == content.value
    decreases |staged|
  {
    if staged == [] then None
    else if staged[0].role == role then
      assert staged[0].role == role;
      Some(staged[0].content)
    else
      var rest := ContentOf(staged[1..], role);
      assert forall i :: 0 <= i < |staged| - 1 ==> staged[1..][i] == staged[i + 1];
      assert forall i :: 0 < i < |staged| ==> staged[1..][i - 1] == staged[i];
      rest
  }

  predicate ReportOk(config: Config, report: Option<string>, schema: string) {
    report.Some? && config.reportSchema(report.value) == Some(schema)
  }

  function PdfFailure(config: Config, pdf: Option<string>, log: Option<string>): Option<Failure> {
    if !(pdf.Some? && ValidPdf(pdf.value)) then Some(PdfInvalid)
    else if log.Some? && !config.isUtf8(log.value) then Some(DiagnosticInvalid)
    else None
  }

  function PptxFailure(config: Config, pptx: Option<string>, report: Option<string>): Option<Failure> {
    if !(pptx.Some? && config.isPptx(pptx.value)) then Some(PptxInvalid)
    else if !ReportOk(config, report, "pptx-export-report/v1") then Some(DiagnosticInvalid)
    else None
  }

  function ImportFailure(config: Config, workspace: Option<string>, report: Option<string>, namesProject: bool): Option<Failure> {
    if !(workspace.Some? && config.isWorkspace(workspace.value)) then Some(WorkspaceInvalid)
    else if !ReportOk(config, report, "pptx-import-report/v1") then Some(DiagnosticInvalid)
    else if !namesProject then Some(WorkspaceInvalid)
    else None
  }

  /** What the format checkers say of a complete set. */
  function FormatFailure(config: Config, job: Job, staged: seq<StagedArtifact>): Option<Failure> {
    match job.operation
    case LatexCompilePdf => PdfFailure(config, ContentOf(staged, "pdf"), ContentOf(staged, "log"))
    case TypstExportPptx => PptxFailure(config, ContentOf(staged, "pptx"), ContentOf(staged, "report"))
    case PptxImportTypst =>
      ImportFailure(config, ContentOf(staged, "workspace"), ContentOf(staged, "report"), job.namesProject)
  }

  /** The checks in their order: access, the set as a whole, then the formats. */
  function Judged(config: Config, job: Job, staged: seq<StagedArtifact>, access: Access): Verdict {
    if job.project.Some? && access.Denied? then Refuse(AccessRevoked)
    else if job.project.Some? && access.Unavailable? then RetryLater
    else if !SetOk(config, job.operation, staged) then Refuse(ArtifactSet)
    else
      var failure := FormatFailure(config, job, staged);
      if failure.Some? then Refuse(failure.value) else Publish
  }

  // ---- what publication leaves ----

  function RowArtifact(row: StagedArtifact): Artifact {
    Artifact(row.blob, row.mediaType, row.filename, row.size, row.digest)
  }

  /** The published rows of a job: complete, in contract, and each the size of its stored file. */
  ghost predicate MeetsContract(config: Config, db: Tables, id: nat, operation: Operation) {
    && (forall role {:trigger (id, role) in db.artifacts} :: (id, role) in db.artifacts ==>
          ArtifactOk(config, operation, db.blobs, role, db.artifacts[(id, role)]))
    && (forall c :: c in Contract(operation) && c.required ==> (id, c.role) in db.artifacts)
  }

  predicate ArtifactOk(config: Config, operation: Operation, blobs: map<nat, Blob>, role: string, a: Artifact) {
    && a.blob in blobs
    && RowOk(config, operation,
             StagedArtifact(None, a.blob, role, a.mediaType, a.filename, a.size, a.digest, blobs[a.blob].content))
  }

  lemma {:induction false} InsertedRows(artifacts: map<(nat, string), Artifact>, id: nat, staged: seq<StagedArtifact>)
    requires forall i, j :: 0 <= i < j < |staged| ==> staged[i].role != staged[j].role
    requires forall i :: 0 <= i < |staged| ==> (id, staged[i].role) !in artifacts
    ensures var after := Inserted(artifacts, id, staged);
            && (forall key :: key in artifacts ==> key in after && after[key] == artifacts[key])
            && (forall i :: 0 <= i < |staged| ==>
                  (id, staged[i].role) in after && after[(id, staged[i].role)] == RowArtifact(staged[i]))
            && (forall key :: key in after && key !in artifacts ==> key.0 == id && HasRole(staged, key.1))
    decreases |staged|
  {
    if staged != [] {
      var row := staged[0];
      var next := artifacts[(id, row.role) := RowArtifact(row)];
      assert forall i :: 0 <= i < |staged| - 1 ==> staged[1..][i] == staged[i + 1];
      assert forall i :: 0 < i < |staged| ==> staged[i] == staged[1..][i - 1];
      InsertedRows(next, id, staged[1..]);
    }
  }

  /** A validated result, published: one row per role, every required role, no foreign role, and
    sizes equal to the stored content and within the class limit. */
  lemma PublishedMeetsContract(config: Config, db: Tables, id: nat, operation: Operation, staged: seq<StagedArtifact>)
    requires SetOk(config, operation, staged)
    requires forall role :: (id, role) !in db.artifacts
    requires forall row :: row in staged ==> row.blob in db.blobs && db.blobs[row.blob].content == row.content
    ensures MeetsContract(config, db.(artifacts := Inserted(db.artifacts, id, staged)), id, operation)
  {
    InsertedRows(db.artifacts, id, staged);
    var after := Inserted(db.artifacts, id, staged);
    forall role | (id, role) in after
      ensures ArtifactOk(config, operation, db.blobs, role, after[(id, role)])
    {
      var i :| 0 <= i < |staged| && staged[i].role == role;
      assert staged[i] in staged;
      assert RowOk(config, operation, staged[i]);
    }
    forall c | c in Contract(operation) && c.required
      ensures (id, c.role) in after
    {
      assert HasRole(staged, c.role);
      var i :| 0 <= i < |staged| && staged[i].role == c.role;
    }
  }
}
