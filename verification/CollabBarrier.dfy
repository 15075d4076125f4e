/** The projection barrier: what a capture flush, an ordinary flush and the projector
  guarantee while other transactions go on. */
module CollabBarrier {
  import opened Wrappers
  import opened Sets
  import opened YjsState
  import opened CollabTables
  import opened CollabSystem
  import opened CollabInvariant
  import opened CollabCommits
  import opened CollabSteps
  import opened CollabMeaning
  import opened CollabFence

  // ---- capture, under the exclusive content lock ----

  ghost predicate SameProject(db: Db, db': Db, project: nat) {
    && (forall id :: id in db.updates && db.updates[id].key.project == project ==>
          id in db'.updates && db'.updates[id] == db.updates[id])
    && (forall id :: id in db'.updates && db'.updates[id].key.project == project ==>
          id in db.updates && db'.updates[id] == db.updates[id])
    && (forall slot: Slot :: slot.project == project ==> (slot in db.snapshots <==> slot in db'.snapshots))
    && (forall slot: Slot :: slot.project == project && slot in db.snapshots ==>
          db'.snapshots[slot] == db.snapshots[slot])
    && (forall d :: d in db.docs && db.docs[d].project == project ==> d in db'.docs && db'.docs[d] == db.docs[d])
    && (forall d :: d in db'.docs && db'.docs[d].project == project ==> d in db.docs && db'.docs[d] == db.docs[d])
  }

  lemma ElsewhereIsOtherProject(codec: Codec, db: Db, db': Db, touched: set<nat>, project: nat)
    requires Consistent(codec, db) && Consistent(codec, db') && SameElsewhere(db, db', touched)
    requires forall d :: d in touched && d in db.docs ==> db.docs[d].project != project
    ensures SameProject(db, db', project)
  {
  }

  lemma OtherCommitElsewhere(config: Config, s: Sys, a: Action, project: nat)
    requires Sound(config.codec, s) && Enabled(s, a) && (a.CommitUpdate? || a.CommitReconcile?)
    requires s.txs[a.t].key.project != project
    ensures SameProject(s.db, Apply(config, s, a).db, project)
  {
    if a.CommitUpdate? {
      UpdateEffect(config, s, a.t);
    } else {
      ReconcileCommitEffect(config, s, a.t);
    }
    ElsewhereIsOtherProject(config.codec, s.db, Apply(config, s, a).db, {s.txs[a.t].key.document}, project);
  }

  lemma WorkspaceElsewhere(config: Config, s: Sys, a: Action, t: nat)
    requires Sound(config.codec, s) && Enabled(s, a) && t in s.txs && s.txs[t].content.Exclusive?
    requires a.Rewrite? || a.Create? || a.AdvanceAccess? || a.DrawId?
    ensures SameProject(s.db, Apply(config, s, a).db, s.txs[t].key.project)
  {
  }

  lemma ReplaceElsewhere(config: Config, s: Sys, project: nat, texts: map<nat, string>, t: nat)
    requires Sound(config.codec, s) && Enabled(s, Replace(project, texts)) && t in s.txs
    requires s.txs[t].content.Exclusive?
    ensures SameProject(s.db, ReplaceDocs(s.db, project, texts), s.txs[t].key.project)
  {
  }

  lemma DeleteElsewhere(config: Config, s: Sys, document: nat, t: nat)
    requires Sound(config.codec, s) && Enabled(s, Delete(document)) && t in s.txs && s.txs[t].content.Exclusive?
    ensures SameProject(s.db, Apply(config, s, Delete(document)).db, s.txs[t].key.project)
  {
  }

  /** No step of anyone else changes the project while a capture holds its content lock, so
    everything the capture reads under that lock belongs to one state of the project. */
  lemma ExclusiveFreezesProject(config: Config, s: Sys, a: Action, t: nat)
    requires Sound(config.codec, s) && Enabled(s, a) && t in s.txs && s.txs[t].content.Exclusive?
    requires a.CommitUpdate? || a.CommitReconcile? || a.CommitSuperseded? || a.CommitCapture? ==> a.t != t
    ensures SameProject(s.db, Apply(config, s, a).db, s.txs[t].key.project)
  {
    var project := s.txs[t].key.project;
    if a.CommitUpdate? || a.CommitReconcile? {
      assert TxFits(s.db, s.retired, s.txs[a.t]);
      OtherCommitElsewhere(config, s, a, project);
    } else if a.CommitCapture? {
      OtherCaptureElsewhere(config, s, a.t, a.keys, project);
    } else if a.CommitSuperseded? {
      assert s.txs[a.t].key.project != project;
    } else if a.Delete? {
      DeleteElsewhere(config, s, a.document, t);
    } else if a.Replace? {
      ReplaceElsewhere(config, s, a.project, a.texts, t);
    } else if !TouchesNoTable(a) && !a.Abort? {
      WorkspaceElsewhere(config, s, a, t);
    }
  }

  lemma OtherCaptureElsewhere(config: Config, s: Sys, u: nat, keys: seq<DocKey>, project: nat)
    requires Sound(config.codec, s) && Enabled(s, CommitCapture(u, keys)) && s.txs[u].key.project != project
    ensures SameProject(s.db, Flushed(config, s.db, keys), project)
  {
    var touched := set key | key in keys :: key.document;
    forall key | key in keys
      ensures key.project in s.db.content && s.db.content[key.project] == key.epoch
      ensures key.document in s.db.docs && s.db.docs[key.document].project != project
    {
      PendingIsCurrent(s.db, key);
      var id :| id in Pending(s.db, key);
      assert s.db.updates[id].key == key;
    }
    FlushEffect(config, s.db, keys, touched);
    ElsewhereIsOtherProject(config.codec, s.db, Flushed(config, s.db, keys), touched, project);
  }

  /** After a capture flush no update of the project is pending, and every current document
    with durable state shows the text of everything acknowledged for it. */
  lemma CaptureBarrier(config: Config, start: Sys, actions: seq<Action>, s: Sys, t: nat, keys: seq<DocKey>, key: DocKey)
    requires Initial(start) && Run(config, start, actions, s) && Enabled(s, CommitCapture(t, keys))
    requires key.project == s.txs[t].key.project
    ensures var db' := Apply(config, s, CommitCapture(t, keys)).db;
            && Pending(db', key) == {}
            && (Live(db', key) ==> Durable(db', key) == Meaning(s.history, key) && TextShown(config.codec, db', key))
  {
    InitialSound(config.codec, start);
    assert forall k :: Live(start.db, k) ==> Durable(start.db, k) == {};
    RunFaithful(config, start, actions, s);
    CaptureLeavesNothingPending(config, s, t, keys, key);
  }

  lemma CaptureLeavesNothingPending(config: Config, s: Sys, t: nat, keys: seq<DocKey>, key: DocKey)
    requires Sound(config.codec, s) && Faithful(s) && Enabled(s, CommitCapture(t, keys))
    requires key.project == s.txs[t].key.project
    ensures var db' := Flushed(config, s.db, keys);
            && Pending(db', key) == {}
            && (Live(db', key) ==> Durable(db', key) == Meaning(s.history, key) && TextShown(config.codec, db', key))
  {
    var db' := Flushed(config, s.db, keys);
    CaptureEffect(config, s, t, keys);
    assert key in keys || Pending(s.db, key) == {};
    if Live(db', key) {
      assert Live(s.db, key);
      NothingPendingShows(config.codec, db', key);
    }
  }

  /** The text is that of everything durable, or nothing is durable and the text is canonical. */
  predicate TextShown(codec: Codec, db: Db, key: DocKey)
    requires Live(db, key)
  {
    if HasSnapshot(db, key) then db.docs[key.document].content == codec.text(Durable(db, key))
    else Durable(db, key) == {}
  }

  lemma NothingPendingShows(codec: Codec, db: Db, key: DocKey)
    requires Consistent(codec, db) && Live(db, key) && Pending(db, key) == {}
    ensures TextShown(codec, db, key)
  {
    assert OpsOf(db.updates, {}) == {};
    if HasSnapshot(db, key) {
      assert Durable(db, key) == db.snapshots[SlotOf(key)].state;
    }
  }

  // ---- the ordinary flush, one reconciliation per document ----

  /** The row is in the table, or a snapshot covers it. */
  predicate Stored(db: Db, key: DocKey, id: nat) {
    (id in db.updates && db.updates[id].key == key) || id <= Upto(db, key)
  }

  /** The document or its project has moved past the key for good. */
  predicate Superseded(s: Sys, key: DocKey) {
    || key.document in s.retired
    || (key.document in s.db.docs
        && (s.db.docs[key.document].project != key.project || key.revision < s.db.docs[key.document].revision))
  }

  lemma SupersededStays(config: Config, s: Sys, a: Action, key: DocKey)
    requires Sound(config.codec, s) && Enabled(s, a) && Superseded(s, key)
    ensures Superseded(Apply(config, s, a), key)
  {
    CommitKeepsDocuments(config, s, a);
  }

  predicate SameIdentities(db: Db, db': Db) {
    && db'.content == db.content && db'.docs.Keys == db.docs.Keys
    && (forall d :: d in db.docs ==>
          db'.docs[d].project == db.docs[d].project && db'.docs[d].revision == db.docs[d].revision)
  }

  lemma CommitKeepsDocuments(config: Config, s: Sys, a: Action)
    requires Sound(config.codec, s) && Enabled(s, a)
    ensures a.CommitUpdate? || a.CommitReconcile? || a.CommitSuperseded? || a.CommitCapture? ==>
      SameIdentities(s.db, Apply(config, s, a).db)
  {
    match a
    case CommitUpdate(t) => UpdateEffect(config, s, t);
    case CommitReconcile(t) => ReconcileCommitEffect(config, s, t);
    case CommitSuperseded(t) => ClearRevisionEffect(config.codec, s.db, s.txs[t].key);
    case CommitCapture(t, keys) => CaptureEffect(config, s, t, keys);
    case _ =>
  }

  /** A current key stays current or is superseded. */
  lemma LiveOrSuperseded(config: Config, s: Sys, a: Action, key: DocKey)
    requires Sound(config.codec, s) && Enabled(s, a) && Live(s.db, key)
    ensures Live(Apply(config, s, a).db, key) || Superseded(Apply(config, s, a), key)
  {
    CommitKeepsDocuments(config, s, a);
  }

  lemma {:induction false} SupersededForGood(config: Config, s: Sys, actions: seq<Action>, end: Sys, key: DocKey)
    requires Sound(config.codec, s) && Run(config, s, actions, end) && Superseded(s, key)
    ensures !Live(end.db, key)
    decreases |actions|
  {
    if actions != [] {
      SupersededStays(config, s, actions[0], key);
      StepSound(config, s, actions[0]);
      SupersededForGood(config, Apply(config, s, actions[0]), actions[1..], end, key);
    }
  }

  lemma ReconcileStores(config: Config, s: Sys, t: nat, id: nat)
    requires Sound(config.codec, s) && Enabled(s, CommitReconcile(t)) && Stored(s.db, s.txs[t].key, id)
    ensures id <= Upto(Apply(config, s, CommitReconcile(t)).db, s.txs[t].key)
    ensures Upto(s.db, s.txs[t].key) <= Upto(Apply(config, s, CommitReconcile(t)).db, s.txs[t].key)
  {
    ReconcileCommitEffect(config, s, t);
    var key := s.txs[t].key;
    assert id in s.db.updates && s.db.updates[id].key == key && id > Upto(s.db, key) ==> id in Pending(s.db, key);
  }

  lemma InsertedStores(config: Config, s: Sys, t: nat, id: nat)
    requires Sound(config.codec, s) && Enabled(s, CommitUpdate(t)) && Stored(s.db, s.txs[t].key, id)
    ensures var inserted := OwnView(s.db, s.txs[t]);
            && Consistent(config.codec, inserted) && Live(inserted, s.txs[t].key)
            && Stored(inserted, s.txs[t].key, id) && Upto(inserted, s.txs[t].key) == Upto(s.db, s.txs[t].key)
            && (s.txs[t].loaded.Some? ==> s.txs[t].loaded.value == Load(inserted, s.txs[t].key))
  {
    var tx := s.txs[t];
    assert TxFits(s.db, s.retired, tx);
    InsertEffect(config.codec, s.db, tx.drawn.value, Row(tx.key, tx.role.kind, tx.role.ops, tx.role.contributor));
  }

  lemma PruneStores(db: Db, key: DocKey, latest: nat, retention: nat, id: nat)
    requires Stored(db, key, id)
    ensures Stored(PruneUpdates(db, key, latest, retention), key, id)
    ensures Upto(PruneUpdates(db, key, latest, retention), key) == Upto(db, key)
  {
  }

  lemma UpdateStores(config: Config, s: Sys, t: nat, id: nat)
    requires Sound(config.codec, s) && Enabled(s, CommitUpdate(t)) && Stored(s.db, s.txs[t].key, id)
    ensures Stored(Apply(config, s, CommitUpdate(t)).db, s.txs[t].key, id)
    ensures Upto(s.db, s.txs[t].key) <= Upto(Apply(config, s, CommitUpdate(t)).db, s.txs[t].key)
  {
    var tx := s.txs[t];
    InsertedStores(config, s, t, id);
    if tx.role.kind.Sync? {
      SyncStores(config, OwnView(s.db, tx), tx.key, id);
    } else {
      PruneStores(OwnView(s.db, tx), tx.key, tx.drawn.value, config.retention, id);
    }
  }

  lemma SyncStores(config: Config, db: Db, key: DocKey, id: nat)
    requires Consistent(config.codec, db) && Live(db, key) && Stored(db, key, id)
    ensures id <= Upto(Reconciled(config, db, key, Load(db, key), None), key)
    ensures Upto(db, key) <= Upto(Reconciled(config, db, key, Load(db, key), None), key)
  {
    ReconcileEffect(config, db, key, None);
    assert id in db.updates && db.updates[id].key == key && id > Upto(db, key) ==> id in Pending(db, key);
  }

  lemma FlushedStores(config: Config, s: Sys, a: Action, key: DocKey, id: nat)
    requires Sound(config.codec, s) && Enabled(s, a) && (a.CommitSuperseded? || a.CommitCapture?)
    requires Live(s.db, key) && Stored(s.db, key, id)
    ensures Stored(Apply(config, s, a).db, key, id)
    ensures Upto(s.db, key) <= Upto(Apply(config, s, a).db, key)
  {
    match a
    case CommitSuperseded(t) =>
      ClearRevisionEffect(config.codec, s.db, s.txs[t].key);
    case CommitCapture(t, keys) =>
      PendingIsCurrentList(s, t, keys);
      FlushStores(config, s.db, keys, key, id);
  }

  lemma PendingIsCurrentList(s: Sys, t: nat, keys: seq<DocKey>)
    requires RowsFit(s.db) && Enabled(s, CommitCapture(t, keys))
    ensures forall key :: key in keys ==> key.project in s.db.content && s.db.content[key.project] == key.epoch
  {
    forall key | key in keys
      ensures key.project in s.db.content && s.db.content[key.project] == key.epoch
    {
      PendingIsCurrent(s.db, key);
    }
  }

  lemma FlushOneStores(config: Config, db: Db, flushed: DocKey, key: DocKey, id: nat)
    requires Consistent(config.codec, db) && Live(db, key) && Stored(db, key, id)
    requires flushed.project in db.content && db.content[flushed.project] == flushed.epoch
    ensures Stored(FlushOne(config, db, flushed), key, id)
    ensures Upto(db, key) <= Upto(FlushOne(config, db, flushed), key)
  {
    if !Matches(db, flushed) {
      ClearRevisionEffect(config.codec, db, flushed);
    } else {
      ReconcileEffect(config, db, flushed, None);
      if key.document == flushed.document {
        LiveKeyUnique(db, key, flushed);
        assert id in db.updates && db.updates[id].key == key && id > Upto(db, key) ==> id in Pending(db, key);
      } else {
        SameElsewhereLoads(db, FlushOne(config, db, flushed), {flushed.document}, key);
      }
    }
  }

  lemma {:induction false} FlushStores(config: Config, db: Db, keys: seq<DocKey>, key: DocKey, id: nat)
    requires Consistent(config.codec, db) && Live(db, key) && Stored(db, key, id)
    requires forall k :: k in keys ==> k.project in db.content && db.content[k.project] == k.epoch
    ensures Stored(Flushed(config, db, keys), key, id)
    ensures Upto(db, key) <= Upto(Flushed(config, db, keys), key)
    decreases |keys|
  {
    if keys != [] {
      FlushOneEffect(config, db, keys[0]);
      FlushOneStores(config, db, keys[0], key, id);
      FlushStores(config, FlushOne(config, db, keys[0]), keys[1..], key, id);
    }
  }

  lemma CommitStores(config: Config, s: Sys, a: Action, key: DocKey, id: nat)
    requires Sound(config.codec, s) && Enabled(s, a) && (a.CommitUpdate? || a.CommitReconcile?)
    requires Live(s.db, key) && Stored(s.db, key, id)
    ensures Stored(Apply(config, s, a).db, key, id)
    ensures Upto(s.db, key) <= Upto(Apply(config, s, a).db, key)
  {
    var held := s.txs[a.t].key;
    if a.CommitUpdate? {
      UpdateEffect(config, s, a.t);
    } else {
      ReconcileCommitEffect(config, s, a.t);
    }
    if held.document != key.document {
      SameElsewhereLoads(s.db, Apply(config, s, a).db, {held.document}, key);
    } else {
      LiveKeyUnique(s.db, held, key);
      if a.CommitUpdate? {
        UpdateStores(config, s, a.t, id);
      } else {
        ReconcileStores(config, s, a.t, id);
      }
    }
  }

  /** A workspace step that leaves the key current keeps its rows and snapshot as they are. */
  lemma WorkspaceStores(config: Config, s: Sys, a: Action, s': Sys)
    requires Enabled(s, a) && s' == Apply(config, s, a)
    requires a.Rewrite? || a.Create? || a.AdvanceAccess? || a.DrawId?
    ensures s'.db.updates == s.db.updates && s'.db.snapshots == s.db.snapshots
  {
  }

  lemma RemovalStores(config: Config, s: Sys, a: Action, s': Sys, key: DocKey, id: nat)
    requires Enabled(s, a) && s' == Apply(config, s, a) && (a.Replace? || a.Delete?)
    requires Live(s.db, key) && Live(s'.db, key) && Stored(s.db, key, id)
    ensures Stored(s'.db, key, id) && Upto(s.db, key) <= Upto(s'.db, key)
  {
    if a.Replace? {
      assert s'.db == ReplaceDocs(s.db, a.project, a.texts);
      assert key.project != a.project;
    } else {
      assert s'.db == DeleteDoc(s.db, a.document);
      assert key.document != a.document;
    }
  }

  /** As long as the key is current, no step forgets a stored row or moves its snapshot back. */
  lemma StepStores(config: Config, s: Sys, a: Action, key: DocKey, id: nat)
    requires Sound(config.codec, s) && Enabled(s, a)
    requires Live(s.db, key) && Live(Apply(config, s, a).db, key) && Stored(s.db, key, id)
    ensures Stored(Apply(config, s, a).db, key, id)
    ensures Upto(s.db, key) <= Upto(Apply(config, s, a).db, key)
  {
    if a.CommitUpdate? || a.CommitReconcile? {
      CommitStores(config, s, a, key, id);
    } else if a.CommitSuperseded? || a.CommitCapture? {
      FlushedStores(config, s, a, key, id);
    } else if a.Replace? || a.Delete? {
      RemovalStores(config, s, a, Apply(config, s, a), key, id);
    } else if !TouchesNoTable(a) && !a.Abort? {
      WorkspaceStores(config, s, a, Apply(config, s, a));
    }
  }

  lemma {:induction false} RunStores(config: Config, s: Sys, actions: seq<Action>, end: Sys, key: DocKey, id: nat)
    requires Sound(config.codec, s) && Run(config, s, actions, end)
    requires Live(s.db, key) && Live(end.db, key) && Stored(s.db, key, id)
    ensures Stored(end.db, key, id) && Upto(s.db, key) <= Upto(end.db, key)
    decreases |actions|
  {
    if actions != [] {
      var s' := Apply(config, s, actions[0]);
      StepSound(config, s, actions[0]);
      LiveOrSuperseded(config, s, actions[0], key);
      if !Live(s'.db, key) {
        SupersededForGood(config, s', actions[1..], end, key);
        assert false;
      }
      StepStores(config, s, actions[0], key, id);
      RunStores(config, s', actions[1..], end, key, id);
    }
  }

  /** A row that was ever committed for a still current key is in the table or covered: pruning
    and clearing never lose it. */
  lemma CommittedRowsAreNeverLost(config: Config, start: Sys, before: seq<Action>, s: Sys,
                                  after: seq<Action>, end: Sys, id: nat)
    requires Initial(start) && Run(config, start, before, s) && Run(config, s, after, end)
    requires id in s.db.updates && Live(s.db, s.db.updates[id].key) && Live(end.db, s.db.updates[id].key)
    ensures Stored(end.db, s.db.updates[id].key, id)
  {
    InitialSound(config.codec, start);
    RunSound(config, start, before, s);
    RunStores(config, s, after, end, s.db.updates[id].key, id);
  }

  // ---- the projector makes progress ----

  /** A projector commit uncovers nothing and covers or drops every row of its document. */
  lemma ProjectorCommitLowersBacklog(config: Config, s: Sys, a: Action)
    requires Sound(config.codec, s) && Enabled(s, a)
    requires (a.CommitReconcile? && s.txs[a.t].role.Projector?) || a.CommitSuperseded?
    ensures var key := s.txs[a.t].key;
            var db' := Apply(config, s, a).db;
            && Uncovered(db') <= Uncovered(s.db) - Pending(s.db, key)
            && (Pending(s.db, key) != {} ==> |Uncovered(db')| < |Uncovered(s.db)|)
  {
    var key := s.txs[a.t].key;
    var db' := Apply(config, s, a).db;
    if a.CommitSuperseded? {
      ClearRevisionEffect(config.codec, s.db, key);
    } else {
      ReconcileCommitEffect(config, s, a.t);
      assert TxFits(s.db, s.retired, s.txs[a.t]);
    }
    forall id | id in Uncovered(db')
      ensures id in Uncovered(s.db) && id !in Pending(s.db, key)
    {
      var other := db'.updates[id].key;
      assert id in Pending(db', other);
      if a.CommitSuperseded? {
        assert id in Pending(s.db, other);
      } else {
        ReconciledOthers(config, s.db, key, other);
      }
    }
    assert Pending(s.db, key) <= Uncovered(s.db);
    FewerLeft(Uncovered(db'), Uncovered(s.db), Pending(s.db, key));
  }

  lemma FewerLeft(left: set<nat>, all: set<nat>, done: set<nat>)
    requires left <= all - done && done <= all
    ensures done != {} ==> |left| < |all|
  {
    if done != {} {
      SubsetSize(left, all - done);
      assert |all - done| == |all| - |done|;
    }
  }
}
