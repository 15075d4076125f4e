/** Delivered results that wait too long: maintenance expires uploaded files by their transfer
  deadline even after the worker delivered, so a later finalizer finds the set incomplete
  (backend/src/document_processing/finalization.rs, worker_persistence.rs). */
module ProcessingExpiry {
  import opened Wrappers
  import opened ProcessingModel
  import opened ProcessingTables
  import opened ProcessingResults
  import opened ProcessingInvariant
  import opened ProcessingFinalizers

  /** A file that the worker uploaded for the delivered attempt of the job. */
  predicate DeliveredFile(db: Tables, id: nat, t: nat)
    requires id in db.jobs
  {
    && t in db.transfers && var transfer := db.transfers[t];
    && transfer.job == id && transfer.attempt == db.jobs[id].attempts && (id, transfer.attempt) in db.delivered
    && transfer.upload && transfer.state.Uploaded? && transfer.blob.Some? && transfer.blob.value in db.blobs
  }

  function RowOf(db: Tables, id: nat, t: nat): StagedArtifact
    requires id in db.jobs && DeliveredFile(db, id, t)
  {
    var transfer := db.transfers[t];
    StagedArtifact(Some(t), transfer.blob.value, transfer.role, transfer.mediaType, transfer.filename,
                   transfer.size, transfer.digest, db.blobs[transfer.blob.value].content)
  }

  lemma FinalizingKept(config: Config, db: Tables, batch: set<nat>, now: int, id: nat)
    requires TablesFit(config, db) && id in db.jobs && db.jobs[id].state.Finalizing?
    ensures var aged := Aged(db, batch, now);
            id in aged.jobs && aged.jobs[id] == db.jobs[id] && aged.delivered == db.delivered
  {
    AgedTables(db, batch, now);
    AgedJobKept(db.jobs[id], id in batch, now);
  }

  lemma AgedTransfer(db: Tables, batch: set<nat>, now: int, t: nat)
    requires t in db.transfers
    ensures var aged := Aged(db, batch, now);
            && t in aged.transfers && aged.transfers[t].job == db.transfers[t].job
            && (aged.transfers[t].state.Uploaded? ==> aged.transfers[t] == db.transfers[t] && db.transfers[t].expires > now)
  {
  }

  /** A transfer of a job that is finalizing expires by its deadline and by nothing else. */
  lemma DueTransfer(db: Tables, batch: set<nat>, now: int, t: nat)
    requires t in db.transfers && !ClaimExpired(db, db.transfers[t].job, now) && db.transfers[t].expires > now
    ensures t in Aged(db, batch, now).transfers && Aged(db, batch, now).transfers[t] == db.transfers[t]
  {
  }

  /** What is left of a delivered result after a pass: the files whose transfer deadline lies ahead. */
  lemma DeliveredLater(config: Config, db: Tables, batch: set<nat>, now: int, id: nat, t: nat)
    requires TablesFit(config, db) && id in db.jobs && db.jobs[id].state.Finalizing?
    ensures var aged := Aged(db, batch, now);
            && id in aged.jobs && aged.jobs[id] == db.jobs[id]
            && (DeliveredFile(aged, id, t) <==> DeliveredFile(db, id, t) && db.transfers[t].expires > now)
            && (DeliveredFile(aged, id, t) ==> RowOf(aged, id, t) == RowOf(db, id, t))
  {
    FinalizingKept(config, db, batch, now, id);
    AgedTables(db, batch, now);
    if t in db.transfers {
      AgedTransfer(db, batch, now, t);
      if db.transfers[t].job == id && db.transfers[t].expires > now {
        DueTransfer(db, batch, now, t);
      }
    }
  }

  /** A list of all delivered files of the job, each once. */
  ghost predicate Delivery(db: Tables, id: nat, staged: seq<StagedArtifact>)
    requires id in db.jobs
  {
    && (forall row :: row in staged ==>
          row.transfer.Some? && DeliveredFile(db, id, row.transfer.value) && row == RowOf(db, id, row.transfer.value))
    && (forall t :: DeliveredFile(db, id, t) ==> RowOf(db, id, t) in staged)
    && (forall i, j :: 0 <= i < j < |staged| ==> staged[i] != staged[j])
  }

  /** What the holder of any current token loads, having leased the job without a source, is the delivery. */
  lemma LoadedIsDelivery(db: Tables, id: nat, token: nat, staged: seq<StagedArtifact>)
    requires id in db.jobs && db.jobs[id].state.Finalizing? && db.jobs[id].token == Some(token)
    ensures Loaded(db, id, token, None, staged) <==> Delivery(db, id, staged)
  {
    forall row
      ensures IsStaged(db, id, token, None, row)
              <==> row.transfer.Some? && DeliveredFile(db, id, row.transfer.value) && row == RowOf(db, id, row.transfer.value)
    {
    }
    if Loaded(db, id, token, None, staged) {
      forall t | DeliveredFile(db, id, t)
        ensures RowOf(db, id, t) in staged
      {
        assert IsStaged(db, id, token, None, RowOf(db, id, t));
      }
    }
    if Delivery(db, id, staged) {
      forall row | IsStaged(db, id, token, None, row)
        ensures row in staged
      {
        assert RowOf(db, id, row.transfer.value) in staged;
      }
    }
  }

  predicate RequiredRole(operation: Operation, role: string) {
    exists c :: c in Contract(operation) && c.required && c.role == role
  }

  // ---- a set that lost some of its files ----

  lemma RowByRole(before: seq<StagedArtifact>, row: StagedArtifact, other: StagedArtifact)
    requires forall i, j :: 0 <= i < j < |before| ==> before[i].role != before[j].role
    requires row in before && other in before && row.role == other.role
    ensures row == other
  {
    var i :| 0 <= i < |before| && before[i] == row;
    var j :| 0 <= j < |before| && before[j] == other;
    assert i == j;
  }

  lemma ContentKept(before: seq<StagedArtifact>, after: seq<StagedArtifact>, role: string)
    requires forall i, j :: 0 <= i < j < |before| ==> before[i].role != before[j].role
    requires forall row :: row in after ==> row in before
    requires HasRole(after, role)
    ensures ContentOf(after, role).Some? && ContentOf(after, role) == ContentOf(before, role)
  {
    var content := ContentOf(after, role);
    var k :| 0 <= k < |after| && after[k].role == role && after[k].content == content.value;
    assert after[k] in after;
    var i :| 0 <= i < |before| && before[i] == after[k];
    assert HasRole(before, role);
    var j :| 0 <= j < |before| && before[j].role == role && before[j].content == ContentOf(before, role).value;
    RowByRole(before, before[i], before[j]);
  }

  /** What is left of a complete set is complete exactly when no required row is missing. */
  lemma SetAfterLoss(config: Config, operation: Operation, before: seq<StagedArtifact>, after: seq<StagedArtifact>)
    requires SetOk(config, operation, before) && forall row :: row in after ==> row in before
    requires forall i, j :: 0 <= i < j < |after| ==> after[i] != after[j]
    ensures SetOk(config, operation, after)
            <==> forall row :: row in before && RequiredRole(operation, row.role) ==> row in after
  {
    forall i | 0 <= i < |after|
      ensures RowOk(config, operation, after[i])
    {
      assert after[i] in after;
      var k :| 0 <= k < |before| && before[k] == after[i];
    }
    forall i, j | 0 <= i < j < |after|
      ensures after[i].role != after[j].role
    {
      assert after[i] in after && after[j] in after;
      if after[i].role == after[j].role {
        RowByRole(before, after[i], after[j]);
        assert false;
      }
    }
    if SetOk(config, operation, after) {
      forall row | row in before && RequiredRole(operation, row.role)
        ensures row in after
      {
        assert HasRole(after, row.role);
        var j :| 0 <= j < |after| && after[j].role == row.role;
        assert after[j] in after;
        RowByRole(before, row, after[j]);
      }
    }
    if forall row :: row in before && RequiredRole(operation, row.role) ==> row in after {
      forall c | c in Contract(operation) && c.required
        ensures HasRole(after, c.role)
      {
        assert HasRole(before, c.role);
        var i :| 0 <= i < |before| && before[i].role == c.role;
        assert before[i] in before && RequiredRole(operation, before[i].role);
      }
    }
  }

  /** The format checkers look at required files, and at the log only if there is one. */
  lemma FormatsAfterLoss(config: Config, job: Job, before: seq<StagedArtifact>, after: seq<StagedArtifact>)
    requires SetOk(config, job.operation, before) && FormatFailure(config, job, before).None?
    requires SetOk(config, job.operation, after) && forall row :: row in after ==> row in before
    ensures FormatFailure(config, job, after).None?
  {
    match job.operation
    case LatexCompilePdf =>
      RequiredContent(config, LatexCompilePdf, before, after, 0);
      LatexFormats(config, job, before, after);
    case TypstExportPptx =>
      RequiredContent(config, TypstExportPptx, before, after, 0);
      RequiredContent(config, TypstExportPptx, before, after, 1);
      PptxFormats(config, job, before, after);
    case PptxImportTypst =>
      RequiredContent(config, PptxImportTypst, before, after, 0);
      RequiredContent(config, PptxImportTypst, before, after, 1);
      ImportFormats(config, job, before, after);
  }

  lemma LatexFormats(config: Config, job: Job, before: seq<StagedArtifact>, after: seq<StagedArtifact>)
    requires job.operation.LatexCompilePdf? && FormatFailure(config, job, before).None?
    requires ContentOf(after, "pdf") == ContentOf(before, "pdf")
    requires forall i, j :: 0 <= i < j < |before| ==> before[i].role != before[j].role
    requires forall row :: row in after ==> row in before
    ensures FormatFailure(config, job, after).None?
  {
    if HasRole(after, "log") {
      ContentKept(before, after, "log");
    }
  }

  lemma PptxFormats(config: Config, job: Job, before: seq<StagedArtifact>, after: seq<StagedArtifact>)
    requires job.operation.TypstExportPptx? && FormatFailure(config, job, before).None?
    requires ContentOf(after, "pptx") == ContentOf(before, "pptx") && ContentOf(after, "report") == ContentOf(before, "report")
    ensures FormatFailure(config, job, after).None?
  {
  }

  lemma ImportFormats(config: Config, job: Job, before: seq<StagedArtifact>, after: seq<StagedArtifact>)
    requires job.operation.PptxImportTypst? && FormatFailure(config, job, before).None?
    requires ContentOf(after, "workspace") == ContentOf(before, "workspace")
    requires ContentOf(after, "report") == ContentOf(before, "report")
    ensures FormatFailure(config, job, after).None?
  {
  }

  lemma RequiredContent(config: Config, operation: Operation, before: seq<StagedArtifact>, after: seq<StagedArtifact>, k: nat)
    requires SetOk(config, operation, before) && SetOk(config, operation, after)
    requires forall row :: row in after ==> row in before
    requires k < |Contract(operation)| && Contract(operation)[k].required
    ensures ContentOf(after, Contract(operation)[k].role) == ContentOf(before, Contract(operation)[k].role)
  {
    assert Contract(operation)[k] in Contract(operation);
    ContentKept(before, after, Contract(operation)[k].role);
  }

  lemma JudgedAfterLoss(config: Config, job: Job, before: seq<StagedArtifact>, after: seq<StagedArtifact>, access: Access)
    requires Judged(config, job, before, access) == Publish && forall row :: row in after ==> row in before
    requires forall i, j :: 0 <= i < j < |after| ==> after[i] != after[j]
    ensures Judged(config, job, after, access)
            == (if forall row :: row in before && RequiredRole(job.operation, row.role) ==> row in after
                then Publish else Refuse(ArtifactSet))
  {
    SetAfterLoss(config, job.operation, before, after);
    if SetOk(config, job.operation, after) {
      FormatsAfterLoss(config, job, before, after);
    }
  }

  /** Every delivered file whose role the operation requires has its transfer deadline ahead. */
  ghost predicate RequiredFilesLast(db: Tables, id: nat, now: int)
    requires id in db.jobs
  {
    forall t {:trigger DeliveredFile(db, id, t)} ::
      DeliveredFile(db, id, t) && RequiredRole(db.jobs[id].operation, db.transfers[t].role) ==> db.transfers[t].expires > now
  }

  /** After the deadlines of a pass are applied, a delivered result that would have been published
    still is, whoever leases the job, if and only if the transfer deadline of each required file is
    still ahead; otherwise it is refused as incomplete. */
  lemma DeliveryAfterAging(config: Config, db: Tables, batch: set<nat>, now: int, id: nat,
                           before: seq<StagedArtifact>, after: seq<StagedArtifact>, access: Access)
    requires TablesFit(config, db) && id in db.jobs && db.jobs[id].state.Finalizing?
    requires Delivery(db, id, before) && Judged(config, db.jobs[id], before, access) == Publish
    requires id in Aged(db, batch, now).jobs ==> Delivery(Aged(db, batch, now), id, after)
    ensures id in Aged(db, batch, now).jobs && Aged(db, batch, now).jobs[id] == db.jobs[id]
    ensures Judged(config, db.jobs[id], after, access)
            == (if RequiredFilesLast(db, id, now) then Publish else Refuse(ArtifactSet))
  {
    FinalizingKept(config, db, batch, now, id);
    DeliveriesCompared(config, db, batch, now, id, before, after);
    JudgedAfterLoss(config, db.jobs[id], before, after, access);
    LastingRows(db, id, now, before, after);
  }

  /** Deleting ended jobs leaves the deliveries of the others as they are. */
  lemma DeliveryOutlastsRemoval(config: Config, db: Tables, doomed: set<nat>, id: nat, staged: seq<StagedArtifact>)
    requires TablesFit(config, db) && id in db.jobs && id !in doomed && db.jobs[id].cacheSource.None?
    ensures var db' := Retired(db, doomed);
            id in db'.jobs && db'.jobs[id] == db.jobs[id] && (Delivery(db', id, staged) <==> Delivery(db, id, staged))
  {
    var db' := Retired(db, doomed);
    forall t
      ensures id in db'.jobs && db'.jobs[id] == db.jobs[id]
      ensures DeliveredFile(db', id, t) <==> DeliveredFile(db, id, t)
      ensures DeliveredFile(db', id, t) ==> RowOf(db', id, t) == RowOf(db, id, t)
    {
      FileOutlastsRemoval(db, doomed, id, t);
    }
    SameFiles(db, db', id, staged);
  }

  lemma SameFiles(db: Tables, db': Tables, id: nat, staged: seq<StagedArtifact>)
    requires id in db.jobs && id in db'.jobs
    requires forall t :: DeliveredFile(db', id, t) <==> DeliveredFile(db, id, t)
    requires forall t :: DeliveredFile(db', id, t) ==> RowOf(db', id, t) == RowOf(db, id, t)
    ensures Delivery(db', id, staged) <==> Delivery(db, id, staged)
  {
  }

  lemma FileOutlastsRemoval(db: Tables, doomed: set<nat>, id: nat, t: nat)
    requires id in db.jobs && id !in doomed && db.jobs[id].cacheSource.None?
    ensures var db' := Retired(db, doomed);
            && id in db'.jobs && db'.jobs[id] == db.jobs[id]
            && (DeliveredFile(db', id, t) <==> DeliveredFile(db, id, t))
            && (DeliveredFile(db', id, t) ==> RowOf(db', id, t) == RowOf(db, id, t))
  {
    var left := Removed(db, doomed);
    if DeliveredFile(db, id, t) {
      assert left.transfers[t] == db.transfers[t] && Referenced(left, db.transfers[t].blob.value);
    }
  }

  /** A finalizing job is neither deleted nor changed. */
  lemma FinalizingMaintained(config: Config, db: Tables, batch: set<nat>, now: int, id: nat)
    requires TablesFit(config, db) && id in db.jobs && db.jobs[id].state.Finalizing? && db.jobs[id].cacheSource.None?
    ensures id !in DeletableJobs(Aged(db, batch, now), now)
    ensures id in Maintained(db, batch, now).jobs && Maintained(db, batch, now).jobs[id] == db.jobs[id]
  {
    FinalizingKept(config, db, batch, now, id);
    AgedFits(config, db, batch, now);
  }

  /** The exact condition for a whole pass. */
  lemma DeliveryAfterMaintenance(config: Config, db: Tables, batch: set<nat>, now: int, id: nat,
                                 before: seq<StagedArtifact>, after: seq<StagedArtifact>, access: Access)
    requires TablesFit(config, db) && id in db.jobs && db.jobs[id].state.Finalizing? && db.jobs[id].cacheSource.None?
    requires Delivery(db, id, before) && Judged(config, db.jobs[id], before, access) == Publish
    requires id in Maintained(db, batch, now).jobs ==> Delivery(Maintained(db, batch, now), id, after)
    ensures id in Maintained(db, batch, now).jobs && Maintained(db, batch, now).jobs[id] == db.jobs[id]
    ensures Judged(config, db.jobs[id], after, access)
            == (if RequiredFilesLast(db, id, now) then Publish else Refuse(ArtifactSet))
  {
    var aged := Aged(db, batch, now);
    FinalizingKept(config, db, batch, now, id);
    FinalizingMaintained(config, db, batch, now, id);
    AgedFits(config, db, batch, now);
    DeliveryOutlastsRemoval(config, aged, DeletableJobs(aged, now), id, after);
    DeliveryAfterAging(config, db, batch, now, id, before, after, access);
  }

  /** The list after a pass holds the rows of the list before whose deadline lies ahead. */
  lemma DeliveriesCompared(config: Config, db: Tables, batch: set<nat>, now: int, id: nat,
                           before: seq<StagedArtifact>, after: seq<StagedArtifact>)
    requires TablesFit(config, db) && id in db.jobs && db.jobs[id].state.Finalizing? && Delivery(db, id, before)
    requires id in Aged(db, batch, now).jobs && Delivery(Aged(db, batch, now), id, after)
    ensures forall row :: row in after <==> row in before && db.transfers[row.transfer.value].expires > now
  {
    forall row
      ensures row in after <==> row in before && db.transfers[row.transfer.value].expires > now
    {
      if row in before || row in after {
        DeliveredLater(config, db, batch, now, id, row.transfer.value);
      }
    }
  }

  lemma LastingRows(db: Tables, id: nat, now: int, before: seq<StagedArtifact>, after: seq<StagedArtifact>)
    requires id in db.jobs && Delivery(db, id, before)
    requires forall row :: row in after <==> row in before && db.transfers[row.transfer.value].expires > now
    ensures RequiredFilesLast(db, id, now)
            <==> forall row :: row in before && RequiredRole(db.jobs[id].operation, row.role) ==> row in after
  {
    if forall row :: row in before && RequiredRole(db.jobs[id].operation, row.role) ==> row in after {
      forall t | DeliveredFile(db, id, t) && RequiredRole(db.jobs[id].operation, db.transfers[t].role)
        ensures db.transfers[t].expires > now
      {
        assert RowOf(db, id, t) in before;
      }
    }
  }
}
