/** The meaning of the durable log: in every interleaving, what the tables durably hold of a
  current document is the join of everything ever acknowledged for it. */
module CollabMeaning {
  import opened Wrappers
  import opened YjsState
  import opened CollabTables
  import opened CollabSystem
  import opened CollabInvariant
  import opened CollabCommits
  import opened CollabSteps

  function AddedBy(e: Event, key: DocKey): Ops {
    match e
    case Bootstrapped(k, ops) => if k == key then ops else {}
    case Acked(k, _, _, ops) => if k == key then ops else {}
    case _ => {}
  }

  /** Every seed and every acknowledged update of `key`, joined. */
  function Meaning(history: seq<Event>, key: DocKey): Ops {
    if history == [] then {}
    else Meaning(history[..|history| - 1], key) + AddedBy(history[|history| - 1], key)
  }

  lemma MeaningExtends(history: seq<Event>, e: Event, key: DocKey)
    ensures Meaning(history + [e], key) == Meaning(history, key) + AddedBy(e, key)
  {
    assert (history + [e])[..|history|] == history;
  }

  /** The document an event speaks of had reached that revision. */
  predicate EventKnown(s: Sys, e: Event) {
    (e.Bootstrapped? || e.Acked?) ==>
      && Known(s, e.key.document)
      && (e.key.document in s.db.docs ==> e.key.revision <= s.db.docs[e.key.document].revision)
  }

  ghost predicate HistoryKnown(s: Sys) {
    forall e :: e in s.history ==> EventKnown(s, e)
  }

  ghost predicate Faithful(s: Sys) {
    && HistoryKnown(s)
    && (forall key :: Live(s.db, key) ==> Durable(s.db, key) == Meaning(s.history, key))
  }

  lemma {:induction false} NothingMeant(history: seq<Event>, key: DocKey)
    requires forall e :: e in history && (e.Bootstrapped? || e.Acked?) ==> e.key != key
    ensures Meaning(history, key) == {}
  {
    if history != [] {
      NothingMeant(history[..|history| - 1], key);
      assert history[|history| - 1] in history;
    }
  }

  /** A key whose document has no rows or snapshots at this revision means nothing yet. */
  lemma NothingDurable(db: Db, key: DocKey)
    requires SlotOf(key) !in db.snapshots
    requires forall id :: id in db.updates ==> db.updates[id].key != key
    ensures Durable(db, key) == {} && Pending(db, key) == {} && !HasSnapshot(db, key)
  {
  }

  lemma HistoryGrows(s: Sys, s': Sys)
    requires HistoryKnown(s)
    requires forall d :: Known(s, d) ==> Known(s', d)
    requires forall d :: d in s'.db.docs && Known(s, d) ==>
      d in s.db.docs && s.db.docs[d].revision <= s'.db.docs[d].revision
    requires forall e :: e in s'.history ==> e in s.history || EventKnown(s', e)
    ensures HistoryKnown(s')
  {
    forall e | e in s'.history
      ensures EventKnown(s', e)
    {
      if e in s.history {
        assert EventKnown(s, e);
      }
    }
  }

  lemma CommitUpdateFaithful(config: Config, s: Sys, t: nat)
    requires Sound(config.codec, s) && Faithful(s) && Enabled(s, CommitUpdate(t))
    ensures Faithful(Apply(config, s, CommitUpdate(t)))
  {
    var s' := Apply(config, s, CommitUpdate(t));
    var tx := s.txs[t];
    UpdateEffect(config, s, t);
    HistoryGrows(s, s');
    forall key | Live(s'.db, key)
      ensures Durable(s'.db, key) == Meaning(s'.history, key)
    {
      MeaningExtends(s.history, Acked(tx.key, tx.role.access, tx.drawn.value, tx.role.ops), key);
      OtherKeysLoad(s.db, s'.db, tx.key.document, key);
    }
  }

  lemma OtherKeysLoad(db: Db, db': Db, document: nat, key: DocKey)
    requires SameElsewhere(db, db', {document})
    ensures key.document != document ==> Durable(db', key) == Durable(db, key) && (Live(db', key) <==> Live(db, key))
  {
    if key.document != document {
      SameElsewhereLoads(db, db', {document}, key);
    }
  }

  lemma CommitReconcileFaithful(config: Config, s: Sys, t: nat)
    requires Sound(config.codec, s) && Faithful(s) && Enabled(s, CommitReconcile(t))
    ensures Faithful(Apply(config, s, CommitReconcile(t)))
  {
    var s' := Apply(config, s, CommitReconcile(t));
    var key := s.txs[t].key;
    var seed := SeedFor(config.codec, s.txs[t]);
    ReconcileCommitEffect(config, s, t);
    HistoryGrows(s, s');
    forall live | Live(s'.db, live)
      ensures Durable(s'.db, live) == Meaning(s'.history, live)
    {
      ReconcileMeaning(s.db, s'.db, s.history, key, Base(seed), live);
    }
  }

  lemma ReconcileMeaning(db: Db, db': Db, history: seq<Event>, key: DocKey, seed: Ops, live: DocKey)
    requires Live(db, key) && SameElsewhere(db, db', {key.document}) && Live(db', live)
    requires Durable(db', key) == Durable(db, key) + seed
    requires Durable(db, live) == Meaning(history, live)
    ensures Durable(db', live) == Meaning(history + [Bootstrapped(key, seed)], live)
    ensures seed == {} ==> Durable(db', live) == Meaning(history, live)
  {
    MeaningExtends(history, Bootstrapped(key, seed), live);
    if live.document != key.document {
      SameElsewhereLoads(db, db', {key.document}, live);
    }
  }

  lemma OtherCommitFaithful(config: Config, s: Sys, a: Action)
    requires Sound(config.codec, s) && Faithful(s) && Enabled(s, a)
    requires a.CommitSuperseded? || a.CommitCapture?
    ensures Faithful(Apply(config, s, a))
  {
    match a
    case CommitSuperseded(t) =>
      ClearRevisionEffect(config.codec, s.db, s.txs[t].key);
    case CommitCapture(t, keys) =>
      CaptureEffect(config, s, t, keys);
  }

  lemma ReplaceFaithful(config: Config, s: Sys, project: nat, texts: map<nat, string>)
    requires Sound(config.codec, s) && Faithful(s) && Enabled(s, Replace(project, texts))
    ensures Faithful(Apply(config, s, Replace(project, texts)))
  {
    var s' := Apply(config, s, Replace(project, texts));
    ReplaceTables(config, s, project, texts);
    HistoryGrows(s, s');
    forall key | Live(s'.db, key)
      ensures Durable(s'.db, key) == Meaning(s'.history, key)
    {
      MeaningExtends(s.history, ContentAdvanced(project, texts.Keys), key);
      if key.document in texts {
        NothingDurable(s'.db, key);
        NothingMeant(s.history, key);
      } else {
        SameElsewhereLoads(s.db, s'.db, DocumentsOf(s.db, project), key);
      }
    }
  }

  lemma RewriteFaithful(config: Config, s: Sys, document: nat, text: string)
    requires Sound(config.codec, s) && Faithful(s) && Enabled(s, Rewrite(document, text))
    ensures Faithful(Apply(config, s, Rewrite(document, text)))
  {
    var s' := Apply(config, s, Rewrite(document, text));
    HistoryGrows(s, s');
    forall key | Live(s'.db, key)
      ensures Durable(s'.db, key) == Meaning(s'.history, key)
    {
      MeaningExtends(s.history, Revised(document), key);
      if key.document == document {
        NothingDurable(s'.db, key);
        NothingMeant(s.history, key);
      } else {
        SameElsewhereLoads(s.db, s'.db, {document}, key);
      }
    }
  }

  lemma CreateFaithful(config: Config, s: Sys, project: nat, document: nat, text: string)
    requires Sound(config.codec, s) && Faithful(s) && Enabled(s, Create(project, document, text))
    ensures Faithful(Apply(config, s, Create(project, document, text)))
  {
    var s' := Apply(config, s, Create(project, document, text));
    HistoryGrows(s, s');
    forall key | Live(s'.db, key)
      ensures Durable(s'.db, key) == Meaning(s'.history, key)
    {
      MeaningExtends(s.history, Created(document), key);
      if key.document == document {
        NothingDurable(s'.db, key);
        NothingMeant(s.history, key);
      } else {
        SameElsewhereLoads(s.db, s'.db, {}, key);
      }
    }
  }

  lemma DeleteFaithful(config: Config, s: Sys, document: nat)
    requires Sound(config.codec, s) && Faithful(s) && Enabled(s, Delete(document))
    ensures Faithful(Apply(config, s, Delete(document)))
  {
    var s' := Apply(config, s, Delete(document));
    HistoryGrows(s, s');
    forall key | Live(s'.db, key)
      ensures Durable(s'.db, key) == Meaning(s'.history, key)
    {
      SameElsewhereLoads(s.db, s'.db, {document}, key);
    }
  }

  lemma AdvanceAccessFaithful(config: Config, s: Sys, project: nat)
    requires Sound(config.codec, s) && Faithful(s) && Enabled(s, AdvanceAccess(project))
    ensures Faithful(Apply(config, s, AdvanceAccess(project)))
  {
    var s' := Apply(config, s, AdvanceAccess(project));
    HistoryGrows(s, s');
    forall key | Live(s'.db, key)
      ensures Durable(s'.db, key) == Meaning(s'.history, key)
    {
      MeaningExtends(s.history, AccessAdvanced(project), key);
      SameElsewhereLoads(s.db, s'.db, {}, key);
    }
  }

  lemma StepFaithful(config: Config, s: Sys, a: Action)
    requires Sound(config.codec, s) && Faithful(s) && Enabled(s, a)
    ensures Faithful(Apply(config, s, a))
  {
    match a
    case CommitUpdate(t) => CommitUpdateFaithful(config, s, t);
    case CommitReconcile(t) => CommitReconcileFaithful(config, s, t);
    case CommitSuperseded(t) => OtherCommitFaithful(config, s, a);
    case CommitCapture(t, keys) => OtherCommitFaithful(config, s, a);
    case Replace(project, texts) => ReplaceFaithful(config, s, project, texts);
    case Rewrite(document, text) => RewriteFaithful(config, s, document, text);
    case Create(project, document, text) => CreateFaithful(config, s, project, document, text);
    case Delete(document) => DeleteFaithful(config, s, document);
    case AdvanceAccess(project) => AdvanceAccessFaithful(config, s, project);
    case DrawId(t) => DrawFaithful(config, s, t);
    case _ =>
  }

  lemma DrawFaithful(config: Config, s: Sys, t: nat)
    requires Sound(config.codec, s) && Faithful(s) && Enabled(s, DrawId(t))
    ensures Faithful(Apply(config, s, DrawId(t)))
  {
    forall key: DocKey { SameElsewhereLoads(s.db, Apply(config, s, DrawId(t)).db, {}, key); }
  }

  lemma {:induction false} RunFaithful(config: Config, s: Sys, actions: seq<Action>, end: Sys)
    requires Sound(config.codec, s) && Faithful(s) && Run(config, s, actions, end)
    ensures Sound(config.codec, end) && Faithful(end)
    decreases |actions|
  {
    if actions != [] {
      StepSound(config, s, actions[0]);
      StepFaithful(config, s, actions[0]);
      RunFaithful(config, Apply(config, s, actions[0]), actions[1..], end);
    }
  }

  /** In every interleaving, the snapshot joined with the later rows is the join of every seed
    and every update acknowledged for the document at its current revision and epoch. */
  lemma DurableIsWhatWasAcknowledged(config: Config, start: Sys, actions: seq<Action>, end: Sys, key: DocKey)
    requires Initial(start) && Run(config, start, actions, end) && Live(end.db, key)
    ensures Durable(end.db, key) == Meaning(end.history, key)
  {
    InitialSound(config.codec, start);
    assert forall k :: Live(start.db, k) ==> Durable(start.db, k) == {};
    RunFaithful(config, start, actions, end);
  }
}
