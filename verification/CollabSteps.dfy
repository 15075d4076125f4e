/** Every enabled step, of every transaction and of the workspace around them, is sound. */
module CollabSteps {
  import opened Wrappers
  import opened YjsState
  import opened CollabTables
  import opened CollabSystem
  import opened CollabInvariant
  import opened CollabCommits

  lemma CommitUpdateSound(config: Config, s: Sys, t: nat)
    requires Sound(config.codec, s) && Enabled(s, CommitUpdate(t))
    ensures Sound(config.codec, Apply(config, s, CommitUpdate(t)))
  {
    var s' := Apply(config, s, CommitUpdate(t));
    UpdateEffect(config, s, t);
    SameElsewhereWidens(s.db, s'.db, {s.txs[t].key.document}, s.txs[t].documents);
    CommitSound(config.codec, s, t, s'.db, s.txs[t].drawn, s'.history);
  }

  lemma CommitReconcileSound(config: Config, s: Sys, t: nat)
    requires Sound(config.codec, s) && Enabled(s, CommitReconcile(t))
    ensures Sound(config.codec, Apply(config, s, CommitReconcile(t)))
  {
    var s' := Apply(config, s, CommitReconcile(t));
    ReconcileCommitEffect(config, s, t);
    assert TxFits(s.db, s.retired, s.txs[t]);
    SameElsewhereWidens(s.db, s'.db, {s.txs[t].key.document}, s.txs[t].documents);
    CommitSound(config.codec, s, t, s'.db, None, s'.history);
  }

  lemma CommitSupersededSound(config: Config, s: Sys, t: nat)
    requires Sound(config.codec, s) && Enabled(s, CommitSuperseded(t))
    ensures Sound(config.codec, Apply(config, s, CommitSuperseded(t)))
  {
    var s' := Apply(config, s, CommitSuperseded(t));
    ClearRevisionEffect(config.codec, s.db, s.txs[t].key);
    assert TxFits(s.db, s.retired, s.txs[t]);
    SameElsewhereWidens(s.db, s'.db, {s.txs[t].key.document}, s.txs[t].documents);
    CommitSound(config.codec, s, t, s'.db, None, s'.history);
  }

  /** Uncovered rows belong to the project's current content epoch. */
  lemma PendingIsCurrent(db: Db, key: DocKey)
    requires RowsFit(db) && Pending(db, key) != {}
    ensures key.project in db.content && db.content[key.project] == key.epoch
  {
    var id :| id in Pending(db, key);
    assert id in db.updates && db.updates[id].key == key;
  }

  lemma CaptureEffect(config: Config, s: Sys, t: nat, keys: seq<DocKey>)
    requires Sound(config.codec, s) && Enabled(s, CommitCapture(t, keys))
    ensures var db' := Flushed(config, s.db, keys);
            && Consistent(config.codec, db') && SameElsewhere(s.db, db', s.txs[t].documents)
            && db'.updates.Keys <= s.db.updates.Keys
            && (forall key :: key in keys ==> Pending(db', key) == {})
            && (forall other: DocKey :: Pending(db', other) <= Pending(s.db, other))
            && (forall live: DocKey :: Live(s.db, live) ==>
                  Durable(db', live) == Durable(s.db, live) && KeepsUnflushed(s.db, db', live, live in keys))
  {
    forall key | key in keys
      ensures key.project in s.db.content && s.db.content[key.project] == key.epoch
    {
      PendingIsCurrent(s.db, key);
    }
    FlushEffect(config, s.db, keys, s.txs[t].documents);
  }

  lemma CommitCaptureSound(config: Config, s: Sys, t: nat, keys: seq<DocKey>)
    requires Sound(config.codec, s) && Enabled(s, CommitCapture(t, keys))
    ensures Sound(config.codec, Apply(config, s, CommitCapture(t, keys)))
  {
    var s' := Apply(config, s, CommitCapture(t, keys));
    CaptureEffect(config, s, t, keys);
    CommitSound(config.codec, s, t, s'.db, None, s'.history);
  }

  // ---- the workspace around the collaboration transactions ----

  /** A workspace step that leaves the rows of every still owned document alone keeps `loaded` true. */
  lemma WorkspaceFits(db: Db, db': Db, retired: set<nat>, retired': set<nat>, touched: set<nat>, tx: Tx)
    requires TxFits(db, retired, tx)
    requires SameRowsElsewhere(db, db', touched) && db'.nextId == db.nextId
    requires db'.updates.Keys <= db.updates.Keys
    requires Owned(db', tx.key) ==> Owned(db, tx.key) && tx.key.document !in touched
    requires tx.rowHeld ==> tx.key.document !in touched
    ensures tx.drawn.Some? ==> Reserved(db', tx.key.document, tx.drawn.value)
    ensures tx.loaded.Some? && Owned(db', tx.key) ==> tx.loaded.value == Load(OwnView(db', tx), tx.key)
  {
    if tx.loaded.Some? && Owned(db', tx.key) {
      assert SameRowsElsewhere(OwnView(db, tx), OwnView(db', tx), touched);
      SameElsewhereLoads(OwnView(db, tx), OwnView(db', tx), touched, tx.key);
    }
  }

  lemma RewriteSound(config: Config, s: Sys, document: nat, text: string)
    requires Sound(config.codec, s) && Enabled(s, Rewrite(document, text))
    ensures Sound(config.codec, Apply(config, s, Rewrite(document, text)))
  {
    var db' := RewriteDoc(s.db, document, text);
    forall t | t in s.txs
      ensures TxFits(db', s.retired, s.txs[t])
    {
      WorkspaceFits(s.db, db', s.retired, s.retired, {}, s.txs[t]);
    }
  }

  lemma CreateSound(config: Config, s: Sys, project: nat, document: nat, text: string)
    requires Sound(config.codec, s) && Enabled(s, Create(project, document, text))
    ensures Sound(config.codec, Apply(config, s, Create(project, document, text)))
  {
    var db' := Apply(config, s, Create(project, document, text)).db;
    forall t | t in s.txs
      ensures TxFits(db', s.retired, s.txs[t])
    {
      assert TxFits(s.db, s.retired, s.txs[t]);
      if !s.txs[t].role.Capturer? {
        WorkspaceFits(s.db, db', s.retired, s.retired, {}, s.txs[t]);
      }
    }
  }

  lemma DeleteSound(config: Config, s: Sys, document: nat)
    requires Sound(config.codec, s) && Enabled(s, Delete(document))
    ensures Sound(config.codec, Apply(config, s, Delete(document)))
  {
    var db' := DeleteDoc(s.db, document);
    forall t | t in s.txs
      ensures TxFits(db', s.retired + {document}, s.txs[t])
    {
      assert TxFits(s.db, s.retired, s.txs[t]);
      WorkspaceFits(s.db, db', s.retired, s.retired + {document}, {document}, s.txs[t]);
    }
  }

  lemma AdvanceAccessSound(config: Config, s: Sys, project: nat)
    requires Sound(config.codec, s) && Enabled(s, AdvanceAccess(project))
    ensures Sound(config.codec, Apply(config, s, AdvanceAccess(project)))
  {
    var db' := Apply(config, s, AdvanceAccess(project)).db;
    forall t | t in s.txs
      ensures TxFits(db', s.retired, s.txs[t])
    {
      assert TxFits(s.db, s.retired, s.txs[t]);
      WorkspaceFits(s.db, db', s.retired, s.retired, {}, s.txs[t]);
    }
  }

  function DocumentsOf(db: Db, project: nat): set<nat> {
    set d | d in db.docs && db.docs[d].project == project
  }

  lemma ReplaceTables(config: Config, s: Sys, project: nat, texts: map<nat, string>)
    requires Sound(config.codec, s) && Enabled(s, Replace(project, texts))
    ensures var db' := ReplaceDocs(s.db, project, texts);
            && Consistent(config.codec, db')
            && SameRowsElsewhere(s.db, db', DocumentsOf(s.db, project))
            && db'.updates.Keys <= s.db.updates.Keys && db'.nextId == s.db.nextId
  {
    ReplaceRows(config, s, project, texts);
  }

  lemma ReplaceRows(config: Config, s: Sys, project: nat, texts: map<nat, string>)
    requires Sound(config.codec, s) && Enabled(s, Replace(project, texts))
    ensures var db' := ReplaceDocs(s.db, project, texts);
            && SameRowsElsewhere(s.db, db', DocumentsOf(s.db, project))
            && db'.updates.Keys <= s.db.updates.Keys && db'.nextId == s.db.nextId
  {
  }

  lemma ReplaceFits(s: Sys, project: nat, texts: map<nat, string>, tx: Tx)
    requires project in s.db.content && TxFits(s.db, s.retired, tx)
    requires tx.key.project == project ==> tx.content.Unlocked?
    requires forall d :: d in texts ==> !Known(s, d)
    requires SameRowsElsewhere(s.db, ReplaceDocs(s.db, project, texts), DocumentsOf(s.db, project))
    ensures TxFits(ReplaceDocs(s.db, project, texts), s.retired + DocumentsOf(s.db, project), tx)
  {
    var db' := ReplaceDocs(s.db, project, texts);
    if !tx.role.Capturer? {
      WorkspaceFits(s.db, db', s.retired, s.retired + DocumentsOf(s.db, project), DocumentsOf(s.db, project), tx);
    }
  }

  lemma ReplaceSound(config: Config, s: Sys, project: nat, texts: map<nat, string>)
    requires Sound(config.codec, s) && Enabled(s, Replace(project, texts))
    ensures Sound(config.codec, Apply(config, s, Replace(project, texts)))
  {
    var s' := Apply(config, s, Replace(project, texts));
    ReplaceTables(config, s, project, texts);
    forall t | t in s.txs
      ensures TxFits(s'.db, s'.retired, s.txs[t])
    {
      ReplaceFits(s, project, texts, s.txs[t]);
    }
  }

  /** Soundness holds initially and every enabled action keeps it. */
  lemma InitialSound(codec: Codec, s: Sys)
    requires Initial(s)
    ensures Sound(codec, s)
  {
  }

  lemma StepSound(config: Config, s: Sys, a: Action)
    requires Sound(config.codec, s) && Enabled(s, a)
    ensures Sound(config.codec, Apply(config, s, a))
  {
    match a
    case CommitUpdate(t) => CommitUpdateSound(config, s, t);
    case CommitReconcile(t) => CommitReconcileSound(config, s, t);
    case CommitSuperseded(t) => CommitSupersededSound(config, s, t);
    case CommitCapture(t, keys) => CommitCaptureSound(config, s, t, keys);
    case DrawId(t) => DrawSound(config, s, t);
    case Abort(t) => AbortSound(config, s, t);
    case Replace(project, texts) => ReplaceSound(config, s, project, texts);
    case Rewrite(document, text) => RewriteSound(config, s, document, text);
    case Create(project, document, text) => CreateSound(config, s, project, document, text);
    case Delete(document) => DeleteSound(config, s, document);
    case AdvanceAccess(project) => AdvanceAccessSound(config, s, project);
    case _ => LocalStepSound(config, s, a);
  }
}
