/** Bootstrap before writing: the canonical text of a bootstrapped document is always part of
  what is durable. */
module CollabBoot {
  import opened Wrappers
  import opened YjsState
  import opened CollabTables
  import opened CollabSystem
  import opened CollabInvariant
  import opened CollabCommits
  import opened CollabSteps
  import opened CollabMeaning

  /** The operations of every acknowledged update of `key`, without any seed. */
  function Acknowledged(history: seq<Event>, key: DocKey): Ops {
    if history == [] then {}
    else
      var e := history[|history| - 1];
      Acknowledged(history[..|history| - 1], key) + (if e.Acked? && e.key == key then e.ops else {})
  }

  lemma HistoryAppends(history: seq<Event>, e: Event, key: DocKey)
    ensures Meaning(history + [e], key) == Meaning(history, key) + AddedBy(e, key)
    ensures Acknowledged(history + [e], key)
            == Acknowledged(history, key) + (if e.Acked? && e.key == key then e.ops else {})
    ensures Booted(history + [e], key) <==> Booted(history, key) || (e.Bootstrapped? && e.key == key)
    ensures Written(history + [e], key) <==> Written(history, key) || (e.Acked? && e.key == key)
  {
    MeaningExtends(history, e, key);
    assert (history + [e])[..|history|] == history;
    assert e in history + [e];
  }

  /** The canonical text, as a seed, and everything acknowledged since; or nothing yet. */
  ghost predicate SeededKey(codec: Codec, s: Sys, key: DocKey)
    requires Live(s.db, key)
  {
    && key.document in s.canon
    && if Booted(s.history, key)
       then
         && HasSnapshot(s.db, key)
         && Meaning(s.history, key) == codec.seed(s.canon[key.document]) + Acknowledged(s.history, key)
       else
         && !HasSnapshot(s.db, key) && Pending(s.db, key) == {}
         && Acknowledged(s.history, key) == {}
         && s.db.docs[key.document].content == s.canon[key.document]
  }

  /** Whoever may write or compact a document without seeding it comes after its bootstrap. */
  ghost predicate Preceded(s: Sys, tx: Tx) {
    tx.role.Writer? || tx.role.Projector? ==> Booted(s.history, tx.key)
  }

  ghost predicate Seeded(codec: Codec, s: Sys) {
    && (forall d :: d in s.db.docs ==> d in s.canon)
    && (forall t :: t in s.txs ==> Preceded(s, s.txs[t]))
    && (forall key {:trigger Written(s.history, key)} :: Written(s.history, key) ==> Booted(s.history, key))
    && (forall key :: Live(s.db, key) ==> SeededKey(codec, s, key))
  }

  // ---- what each step does to one live document ----

  lemma EmptyKeySeeded(codec: Codec, s: Sys, key: DocKey)
    requires Live(s.db, key) && key.document in s.canon
    requires s.db.docs[key.document].content == s.canon[key.document]
    requires SlotOf(key) !in s.db.snapshots
    requires forall id :: id in s.db.updates ==> s.db.updates[id].key != key
    requires forall e :: e in s.history && (e.Bootstrapped? || e.Acked?) ==> e.key != key
    ensures SeededKey(codec, s, key)
  {
    NothingDurable(s.db, key);
    NothingAcknowledged(s.history, key);
  }

  lemma {:induction false} NothingAcknowledged(history: seq<Event>, key: DocKey)
    requires forall e :: e in history && e.Acked? ==> e.key != key
    ensures Acknowledged(history, key) == {}
  {
    if history != [] {
      NothingAcknowledged(history[..|history| - 1], key);
      assert history[|history| - 1] in history;
    }
  }

  /** A live document that a step does not touch stays seeded. */
  lemma UntouchedSeeded(codec: Codec, s: Sys, s': Sys, touched: set<nat>, key: DocKey)
    requires Live(s.db, key) && SeededKey(codec, s, key) && Live(s'.db, key)
    requires SameRowsElsewhere(s.db, s'.db, touched) && key.document !in touched
    requires s'.db.docs[key.document] == s.db.docs[key.document]
    requires key.document in s'.canon && s'.canon[key.document] == s.canon[key.document]
    requires s'.history == s.history
             || exists e: Event :: s'.history == s.history + [e] && (e.Acked? || e.Bootstrapped? ==> e.key != key)
    ensures SeededKey(codec, s', key)
  {
    SameElsewhereLoads(s.db, s'.db, touched, key);
    if s'.history != s.history {
      var e: Event :| s'.history == s.history + [e] && (e.Acked? || e.Bootstrapped? ==> e.key != key);
      HistoryAppends(s.history, e, key);
    }
  }

  lemma UpdateSeeded(config: Config, s: Sys, t: nat)
    requires Sound(config.codec, s) && Seeded(config.codec, s) && Enabled(s, CommitUpdate(t))
    ensures SeededKey(config.codec, Apply(config, s, CommitUpdate(t)), s.txs[t].key)
  {
    var tx := s.txs[t];
    var s' := Apply(config, s, CommitUpdate(t));
    UpdateEffect(config, s, t);
    UpdateKeepsSnapshot(config, s.db, tx);
    assert Preceded(s, tx) && SeededKey(config.codec, s, tx.key);
    HistoryAppends(s.history, Acked(tx.key, tx.role.access, tx.drawn.value, tx.role.ops), tx.key);
  }

  lemma UpdateKeepsSnapshot(config: Config, db: Db, tx: Tx)
    requires tx.role.Writer? && tx.drawn.Some? && (tx.role.kind.Sync? ==> tx.loaded.Some?)
    requires HasSnapshot(db, tx.key)
    ensures HasSnapshot(UpdateCommitted(config, db, tx), tx.key)
  {
  }

  /** A bootstrap adds the canonical seed exactly when it is the first. */
  lemma SeedIsCanonical(config: Config, s: Sys, t: nat)
    requires Sound(config.codec, s) && Seeded(config.codec, s) && Enabled(s, CommitReconcile(t))
    ensures var tx := s.txs[t];
            && Live(s.db, tx.key) && SeededKey(config.codec, s, tx.key)
            && (!Booted(s.history, tx.key) ==> tx.role.Bootstrapper?)
            && Base(SeedFor(config.codec, tx))
               == if Booted(s.history, tx.key) then {} else config.codec.seed(s.canon[tx.key.document])
  {
    var tx := s.txs[t];
    assert TxFits(s.db, s.retired, tx) && Preceded(s, tx);
    ReconcileCommitEffect(config, s, t);
    assert SeededKey(config.codec, s, tx.key);
  }

  lemma ReconcileSeeded(config: Config, s: Sys, t: nat)
    requires Sound(config.codec, s) && Faithful(s) && Seeded(config.codec, s) && Enabled(s, CommitReconcile(t))
    ensures SeededKey(config.codec, Apply(config, s, CommitReconcile(t)), s.txs[t].key)
  {
    var key := s.txs[t].key;
    ReconcileCommitEffect(config, s, t);
    SeedIsCanonical(config, s, t);
    assert !Booted(s.history, key) ==> Meaning(s.history, key) == Durable(s.db, key) == {};
    SeededAfterBootstrap(config.codec, s, Apply(config, s, CommitReconcile(t)), key, s.txs[t].role.Bootstrapper?);
  }

  lemma SeededAfterBootstrap(codec: Codec, s: Sys, s': Sys, key: DocKey, boots: bool)
    requires Live(s.db, key) && SeededKey(codec, s, key) && Live(s'.db, key) && HasSnapshot(s'.db, key)
    requires s'.canon == s.canon
    requires var seed := if Booted(s.history, key) then {} else codec.seed(s.canon[key.document]);
             s'.history == if boots then s.history + [Bootstrapped(key, seed)] else s.history
    requires !Booted(s.history, key) ==> boots && Meaning(s.history, key) == {}
    ensures SeededKey(codec, s', key)
  {
    if boots {
      HistoryAppends(s.history, s'.history[|s.history|], key);
    }
  }

  // ---- what each step does to the rest ----

  lemma CommitSeeded(config: Config, s: Sys, a: Action)
    requires Sound(config.codec, s) && Faithful(s) && Seeded(config.codec, s) && Enabled(s, a)
    requires a.CommitUpdate? || a.CommitReconcile?
    ensures Seeded(config.codec, Apply(config, s, a))
  {
    var s' := Apply(config, s, a);
    var tx := s.txs[a.t];
    var e := if a.CommitUpdate? then Acked(tx.key, tx.role.access, tx.drawn.value, tx.role.ops)
             else Bootstrapped(tx.key, Base(SeedFor(config.codec, tx)));
    if a.CommitUpdate? {
      UpdateEffect(config, s, a.t);
      UpdateSeeded(config, s, a.t);
    } else {
      ReconcileCommitEffect(config, s, a.t);
      ReconcileSeeded(config, s, a.t);
    }
    assert s'.history == s.history || s'.history == s.history + [e];
    CommitRestSeeded(config.codec, s, s', a.t, e);
  }

  lemma CommitRestSeeded(codec: Codec, s: Sys, s': Sys, t: nat, e: Event)
    requires Seeded(codec, s) && t in s.txs && Live(s.db, s.txs[t].key)
    requires SameElsewhere(s.db, s'.db, {s.txs[t].key.document})
    requires s'.txs == s.txs - {t} && s'.retired == s.retired && s'.canon == s.canon
    requires (e.Acked? || e.Bootstrapped?) && e.key == s.txs[t].key
    requires e.Acked? ==> Booted(s.history, e.key)
    requires s'.history == s.history || s'.history == s.history + [e]
    requires SeededKey(codec, s', s.txs[t].key)
    ensures Seeded(codec, s')
  {
    forall key | Live(s'.db, key)
      ensures SeededKey(codec, s', key)
    {
      if key.document != e.key.document {
        UntouchedSeeded(codec, s, s', {e.key.document}, key);
      }
    }
    HistoryPrecedes(codec, s, s', e);
  }

  /** Bootstraps are never forgotten, so what they precede stays preceded. */
  lemma HistoryPrecedes(codec: Codec, s: Sys, s': Sys, e: Event)
    requires forall t :: t in s.txs ==> Preceded(s, s.txs[t])
    requires forall key {:trigger Written(s.history, key)} :: Written(s.history, key) ==> Booted(s.history, key)
    requires s'.history == s.history || s'.history == s.history + [e]
    requires e.Acked? ==> Booted(s.history, e.key)
    requires forall t :: t in s'.txs ==> t in s.txs && s'.txs[t].role == s.txs[t].role && s'.txs[t].key == s.txs[t].key
    ensures forall t :: t in s'.txs ==> Preceded(s', s'.txs[t])
    ensures forall key {:trigger Written(s'.history, key)} :: Written(s'.history, key) ==> Booted(s'.history, key)
  {
    forall key
      ensures Written(s'.history, key) ==> Booted(s'.history, key)
      ensures Booted(s.history, key) ==> Booted(s'.history, key)
    {
      assert Written(s.history, key) ==> Booted(s.history, key);
      HistoryAppends(s.history, e, key);
    }
    forall t | t in s'.txs
      ensures Preceded(s', s'.txs[t])
    {
      assert Preceded(s, s.txs[t]);
    }
  }

  lemma FlushSeeded(config: Config, s: Sys, a: Action)
    requires Sound(config.codec, s) && Faithful(s) && Seeded(config.codec, s) && Enabled(s, a)
    requires a.CommitCapture? || a.CommitSuperseded?
    ensures Seeded(config.codec, Apply(config, s, a))
  {
    var s' := Apply(config, s, a);
    if a.CommitSuperseded? {
      ClearRevisionEffect(config.codec, s.db, s.txs[a.t].key);
    } else {
      CaptureEffect(config, s, a.t, a.keys);
    }
    forall key | Live(s'.db, key)
      ensures SeededKey(config.codec, s', key)
    {
      assert SeededKey(config.codec, s, key);
    }
    HistoryPrecedes(config.codec, s, s', Created(0));
  }

  lemma BeginSeeded(config: Config, s: Sys, a: Action)
    requires Seeded(config.codec, s) && Enabled(s, a) && a.Begin?
    ensures Preceded(Apply(config, s, a), Begun(a.role, a.key))
  {
    assert a.role.Projector? ==> Written(s.history, a.key);
  }

  lemma LocalApplied(config: Config, s: Sys, a: Action, s': Sys)
    requires Enabled(s, a) && (TouchesNoTable(a) || a.Abort? || a.DrawId?) && s' == Apply(config, s, a)
    ensures s'.db == s.db.(nextId := s'.db.nextId) && s'.history == s.history && s'.canon == s.canon
    ensures s'.retired == s.retired
    ensures forall u :: u in s'.txs && !(a.Begin? && u == a.t) ==>
      u in s.txs && s'.txs[u].role == s.txs[u].role && s'.txs[u].key == s.txs[u].key
  {
  }

  lemma LocalKeysSeeded(codec: Codec, s: Sys, s': Sys)
    requires forall key :: Live(s.db, key) ==> SeededKey(codec, s, key)
    requires s'.db == s.db.(nextId := s'.db.nextId) && s'.history == s.history && s'.canon == s.canon
    ensures forall key :: Live(s'.db, key) ==> SeededKey(codec, s', key)
  {
    forall key | Live(s'.db, key)
      ensures SeededKey(codec, s', key)
    {
      assert SeededKey(codec, s, key);
      SameElsewhereLoads(s.db, s'.db, {}, key);
    }
  }

  lemma LocalSeeded(config: Config, s: Sys, a: Action)
    requires Sound(config.codec, s) && Seeded(config.codec, s) && Enabled(s, a)
    requires TouchesNoTable(a) || a.Abort? || a.DrawId?
    ensures Seeded(config.codec, Apply(config, s, a))
  {
    var s' := Apply(config, s, a);
    LocalApplied(config, s, a, s');
    LocalKeysSeeded(config.codec, s, s');
    if a.Begin? {
      BeginSeeded(config, s, a);
    }
    LocalRestSeeded(config.codec, s, s', if a.Begin? then Some(a.t) else None);
  }

  lemma LocalRestSeeded(codec: Codec, s: Sys, s': Sys, begun: Option<nat>)
    requires Seeded(codec, s) && s'.db == s.db.(nextId := s'.db.nextId)
    requires s'.history == s.history && s'.canon == s.canon && s'.retired == s.retired
    requires forall key :: Live(s'.db, key) ==> SeededKey(codec, s', key)
    requires begun.Some? ==> begun.value in s'.txs && Preceded(s', s'.txs[begun.value])
    requires forall u :: u in s'.txs && Some(u) != begun ==>
      u in s.txs && s'.txs[u].role == s.txs[u].role && s'.txs[u].key == s.txs[u].key
    ensures Seeded(codec, s')
  {
    forall u | u in s'.txs
      ensures Preceded(s', s'.txs[u])
    {
      if Some(u) != begun {
        assert Preceded(s, s.txs[u]);
      }
    }
  }

  lemma RewriteSeeded(config: Config, s: Sys, document: nat, text: string)
    requires Sound(config.codec, s) && Faithful(s) && Seeded(config.codec, s) && Enabled(s, Rewrite(document, text))
    ensures Seeded(config.codec, Apply(config, s, Rewrite(document, text)))
  {
    var s' := Apply(config, s, Rewrite(document, text));
    forall key | Live(s'.db, key)
      ensures SeededKey(config.codec, s', key)
    {
      if key.document == document {
        EmptyKeySeeded(config.codec, s', key);
      } else {
        UntouchedSeeded(config.codec, s, s', {}, key);
      }
    }
    HistoryPrecedes(config.codec, s, s', Revised(document));
  }

  lemma CreateSeeded(config: Config, s: Sys, project: nat, document: nat, text: string)
    requires Sound(config.codec, s) && Faithful(s) && Seeded(config.codec, s)
    requires Enabled(s, Create(project, document, text))
    ensures Seeded(config.codec, Apply(config, s, Create(project, document, text)))
  {
    var s' := Apply(config, s, Create(project, document, text));
    forall key | Live(s'.db, key)
      ensures SeededKey(config.codec, s', key)
    {
      if key.document == document {
        EmptyKeySeeded(config.codec, s', key);
      } else {
        UntouchedSeeded(config.codec, s, s', {}, key);
      }
    }
    HistoryPrecedes(config.codec, s, s', Created(document));
  }

  lemma DeleteSeeded(config: Config, s: Sys, document: nat)
    requires Sound(config.codec, s) && Seeded(config.codec, s) && Enabled(s, Delete(document))
    ensures Seeded(config.codec, Apply(config, s, Delete(document)))
  {
    var s' := Apply(config, s, Delete(document));
    forall key | Live(s'.db, key)
      ensures SeededKey(config.codec, s', key)
    {
      UntouchedSeeded(config.codec, s, s', {document}, key);
    }
    HistoryPrecedes(config.codec, s, s', Created(document));
  }

  lemma AdvanceAccessSeeded(config: Config, s: Sys, project: nat)
    requires Sound(config.codec, s) && Seeded(config.codec, s) && Enabled(s, AdvanceAccess(project))
    ensures Seeded(config.codec, Apply(config, s, AdvanceAccess(project)))
  {
    var s' := Apply(config, s, AdvanceAccess(project));
    forall key | Live(s'.db, key)
      ensures SeededKey(config.codec, s', key)
    {
      UntouchedSeeded(config.codec, s, s', {}, key);
    }
    HistoryPrecedes(config.codec, s, s', AccessAdvanced(project));
  }

  lemma ReplaceKeysSeeded(config: Config, s: Sys, project: nat, texts: map<nat, string>, key: DocKey)
    requires Sound(config.codec, s) && Faithful(s) && Seeded(config.codec, s) && Enabled(s, Replace(project, texts))
    requires Live(Apply(config, s, Replace(project, texts)).db, key)
    ensures SeededKey(config.codec, Apply(config, s, Replace(project, texts)), key)
  {
    var s' := Apply(config, s, Replace(project, texts));
    ReplaceTables(config, s, project, texts);
    if key.document in texts {
      EmptyKeySeeded(config.codec, s', key);
    } else {
      UntouchedSeeded(config.codec, s, s', DocumentsOf(s.db, project), key);
    }
  }

  lemma ReplaceSeeded(config: Config, s: Sys, project: nat, texts: map<nat, string>)
    requires Sound(config.codec, s) && Faithful(s) && Seeded(config.codec, s) && Enabled(s, Replace(project, texts))
    ensures Seeded(config.codec, Apply(config, s, Replace(project, texts)))
  {
    var s' := Apply(config, s, Replace(project, texts));
    forall key | Live(s'.db, key)
      ensures SeededKey(config.codec, s', key)
    {
      ReplaceKeysSeeded(config, s, project, texts, key);
    }
    HistoryPrecedes(config.codec, s, s', ContentAdvanced(project, texts.Keys));
  }

  lemma StepSeeded(config: Config, s: Sys, a: Action)
    requires Sound(config.codec, s) && Faithful(s) && Seeded(config.codec, s) && Enabled(s, a)
    ensures Seeded(config.codec, Apply(config, s, a))
  {
    match a
    case CommitUpdate(_) => CommitSeeded(config, s, a);
    case CommitReconcile(_) => CommitSeeded(config, s, a);
    case CommitSuperseded(_) => FlushSeeded(config, s, a);
    case CommitCapture(_, _) => FlushSeeded(config, s, a);
    case Replace(project, texts) => ReplaceSeeded(config, s, project, texts);
    case Rewrite(document, text) => RewriteSeeded(config, s, document, text);
    case Create(project, document, text) => CreateSeeded(config, s, project, document, text);
    case Delete(document) => DeleteSeeded(config, s, document);
    case AdvanceAccess(project) => AdvanceAccessSeeded(config, s, project);
    case _ => LocalSeeded(config, s, a);
  }

  lemma {:induction false} RunSeeded(config: Config, s: Sys, actions: seq<Action>, end: Sys)
    requires Sound(config.codec, s) && Faithful(s) && Seeded(config.codec, s) && Run(config, s, actions, end)
    ensures Sound(config.codec, end) && Faithful(end) && Seeded(config.codec, end)
    decreases |actions|
  {
    if actions != [] {
      StepSound(config, s, actions[0]);
      StepFaithful(config, s, actions[0]);
      StepSeeded(config, s, actions[0]);
      RunSeeded(config, Apply(config, s, actions[0]), actions[1..], end);
    }
  }

  /** In every interleaving a bootstrapped document durably holds its canonical text and every
    update ever acknowledged for it, and nothing else; a document not bootstrapped yet holds
    nothing and still shows its canonical text. */
  lemma DurableIsSeedAndAcknowledged(config: Config, start: Sys, actions: seq<Action>, end: Sys, key: DocKey)
    requires Initial(start) && Run(config, start, actions, end) && Live(end.db, key)
    ensures key.document in end.canon
    ensures if Booted(end.history, key)
            then Durable(end.db, key)
                 == config.codec.seed(end.canon[key.document]) + Acknowledged(end.history, key)
            else
              && Durable(end.db, key) == {} && Acknowledged(end.history, key) == {}
              && end.db.docs[key.document].content == end.canon[key.document]
  {
    InitialSound(config.codec, start);
    assert forall k :: Live(start.db, k) ==> Durable(start.db, k) == {} && SeededKey(config.codec, start, k);
    RunSeeded(config, start, actions, end);
    assert SeededKey(config.codec, end, key);
  }

  /** Bootstrapping a document of which nothing is persisted leaves its text as it is. */
  lemma FirstBootstrapKeepsText(config: Config, s: Sys, t: nat)
    requires Sound(config.codec, s) && SeedRoundTrips(config.codec)
    requires Enabled(s, CommitReconcile(t)) && s.txs[t].role.Bootstrapper?
    requires !HasSnapshot(s.db, s.txs[t].key) && Pending(s.db, s.txs[t].key) == {}
    ensures var document := s.txs[t].key.document;
            Apply(config, s, CommitReconcile(t)).db.docs[document].content == s.db.docs[document].content
  {
    ReconcileCommitEffect(config, s, t);
    assert TxFits(s.db, s.retired, s.txs[t]);
    assert OpsOf(s.db.updates, {}) == {};
  }
}
