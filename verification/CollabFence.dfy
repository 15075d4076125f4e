/** The epoch fence: every acknowledged update commits while the project's content epoch, its
  access epoch and the document's revision are the ones its connection carries. */
module CollabFence {
  import opened Wrappers
  import opened YjsState
  import opened CollabTables
  import opened CollabSystem
  import opened CollabInvariant
  import opened CollabCommits
  import opened CollabSteps

  // The epochs and revisions a reader of the committed history computes for itself.

  function ContentAt(initial: map<nat, nat>, history: seq<Event>, project: nat): nat {
    if history == [] then (if project in initial then initial[project] else 0)
    else
      var e := history[|history| - 1];
      ContentAt(initial, history[..|history| - 1], project)
      + (if e.ContentAdvanced? && e.project == project then 1 else 0)
  }

  function AccessAt(initial: map<nat, nat>, history: seq<Event>, project: nat): nat {
    if history == [] then (if project in initial then initial[project] else 0)
    else
      var e := history[|history| - 1];
      AccessAt(initial, history[..|history| - 1], project)
      + (if e.AccessAdvanced? && e.project == project then 1 else 0)
  }

  function RevisionAt(initial: map<nat, Doc>, history: seq<Event>, document: nat): nat {
    if history == [] then (if document in initial then initial[document].revision else 0)
    else
      var e := history[|history| - 1];
      var before := RevisionAt(initial, history[..|history| - 1], document);
      if e.Revised? && e.document == document then before + 1
      else if (e.Created? && e.document == document) || (e.ContentAdvanced? && document in e.created) then 0
      else before
  }

  /** The update acknowledged by `e` knew every advance committed in `before`. */
  predicate KnewAll(initial: Db, before: seq<Event>, e: Event) {
    e.Acked? ==>
      && ContentAt(initial.content, before, e.key.project) == e.key.epoch
      && AccessAt(initial.access, before, e.key.project) == e.access
      && RevisionAt(initial.docs, before, e.key.document) == e.key.revision
  }

  ghost predicate Fenced(initial: Db, history: seq<Event>) {
    forall i :: 0 <= i < |history| ==> KnewAll(initial, history[..i], history[i])
  }

  ghost predicate Replayed(initial: Db, s: Sys) {
    && (forall p :: p in s.db.content ==> s.db.content[p] == ContentAt(initial.content, s.history, p))
    && (forall p :: p in s.db.access ==> s.db.access[p] == AccessAt(initial.access, s.history, p))
    && (forall d :: d in s.db.docs ==> s.db.docs[d].revision == RevisionAt(initial.docs, s.history, d))
  }

  lemma FenceExtends(initial: Db, history: seq<Event>, e: Event)
    requires Fenced(initial, history) && KnewAll(initial, history, e)
    ensures Fenced(initial, history + [e])
  {
    var longer := history + [e];
    forall i | 0 <= i < |longer|
      ensures KnewAll(initial, longer[..i], longer[i])
    {
      assert longer[..i] == history[..i];
      if i == |history| {
        assert history[..i] == history;
      } else {
        assert KnewAll(initial, history[..i], history[i]);
      }
    }
  }

  /** A commit that keeps epochs and revisions and appends nothing but an update or a seed. */
  lemma CommitReplays(initial: Db, s: Sys, s': Sys, touched: set<nat>)
    requires Replayed(initial, s) && SameElsewhere(s.db, s'.db, touched)
    requires s'.history == s.history
             || exists e: Event :: (e.Acked? || e.Bootstrapped?) && s'.history == s.history + [e]
    ensures Replayed(initial, s')
  {
    if s'.history != s.history {
      var e: Event :| (e.Acked? || e.Bootstrapped?) && s'.history == s.history + [e];
      assert (s.history + [e])[..|s.history|] == s.history;
    }
  }

  lemma UpdateFenced(config: Config, initial: Db, s: Sys, t: nat, s': Sys)
    requires Sound(config.codec, s) && Replayed(initial, s) && Fenced(initial, s.history)
    requires Enabled(s, CommitUpdate(t)) && s' == Apply(config, s, CommitUpdate(t))
    ensures Replayed(initial, s') && Fenced(initial, s'.history)
  {
    var tx := s.txs[t];
    assert TxFits(s.db, s.retired, tx);
    UpdateEffect(config, s, t);
    FenceExtends(initial, s.history, Acked(tx.key, tx.role.access, tx.drawn.value, tx.role.ops));
    CommitReplays(initial, s, s', {tx.key.document});
  }

  lemma ReconcileFenced(config: Config, initial: Db, s: Sys, t: nat, s': Sys)
    requires Sound(config.codec, s) && Replayed(initial, s) && Fenced(initial, s.history)
    requires Enabled(s, CommitReconcile(t)) && s' == Apply(config, s, CommitReconcile(t))
    ensures Replayed(initial, s') && Fenced(initial, s'.history)
  {
    var tx := s.txs[t];
    assert TxFits(s.db, s.retired, tx);
    ReconcileCommitEffect(config, s, t);
    FenceExtends(initial, s.history, Bootstrapped(tx.key, Base(SeedFor(config.codec, tx))));
    CommitReplays(initial, s, s', {tx.key.document});
  }

  lemma FlushFenced(config: Config, initial: Db, s: Sys, a: Action)
    requires Sound(config.codec, s) && Replayed(initial, s) && Enabled(s, a)
    requires a.CommitSuperseded? || a.CommitCapture?
    ensures Replayed(initial, Apply(config, s, a)) && Apply(config, s, a).history == s.history
  {
    if a.CommitCapture? {
      CaptureEffect(config, s, a.t, a.keys);
      CommitReplays(initial, s, Apply(config, s, a), s.txs[a.t].documents);
    }
  }

  lemma ReplaceReplays(config: Config, initial: Db, s: Sys, project: nat, texts: map<nat, string>)
    requires Replayed(initial, s) && Enabled(s, Replace(project, texts))
    ensures Replayed(initial, Apply(config, s, Replace(project, texts)))
  {
    var s' := Apply(config, s, Replace(project, texts));
    assert s'.history[..|s.history|] == s.history;
  }

  lemma RewriteReplays(config: Config, initial: Db, s: Sys, document: nat, text: string)
    requires Replayed(initial, s) && Enabled(s, Rewrite(document, text))
    ensures Replayed(initial, Apply(config, s, Rewrite(document, text)))
  {
    assert Apply(config, s, Rewrite(document, text)).history[..|s.history|] == s.history;
  }

  lemma CreateReplays(config: Config, initial: Db, s: Sys, project: nat, document: nat, text: string)
    requires Replayed(initial, s) && Enabled(s, Create(project, document, text))
    ensures Replayed(initial, Apply(config, s, Create(project, document, text)))
  {
    assert Apply(config, s, Create(project, document, text)).history[..|s.history|] == s.history;
  }

  lemma AdvanceAccessReplays(config: Config, initial: Db, s: Sys, project: nat)
    requires Replayed(initial, s) && Enabled(s, AdvanceAccess(project))
    ensures Replayed(initial, Apply(config, s, AdvanceAccess(project)))
  {
    assert Apply(config, s, AdvanceAccess(project)).history[..|s.history|] == s.history;
  }

  lemma WorkspaceFenced(config: Config, initial: Db, s: Sys, a: Action)
    requires Replayed(initial, s) && Fenced(initial, s.history) && Enabled(s, a)
    requires a.Replace? || a.Rewrite? || a.Create? || a.AdvanceAccess?
    ensures Replayed(initial, Apply(config, s, a)) && Fenced(initial, Apply(config, s, a).history)
  {
    var e := match a
      case Replace(project, texts) => ContentAdvanced(project, texts.Keys)
      case Rewrite(document, _) => Revised(document)
      case Create(_, document, _) => Created(document)
      case AdvanceAccess(project) => AccessAdvanced(project);
    FenceExtends(initial, s.history, e);
    match a {
      case Replace(project, texts) => ReplaceReplays(config, initial, s, project, texts);
      case Rewrite(document, text) => RewriteReplays(config, initial, s, document, text);
      case Create(project, document, text) => CreateReplays(config, initial, s, project, document, text);
      case AdvanceAccess(project) => AdvanceAccessReplays(config, initial, s, project);
    }
  }

  lemma StepFenced(config: Config, initial: Db, s: Sys, a: Action)
    requires Sound(config.codec, s) && Replayed(initial, s) && Fenced(initial, s.history) && Enabled(s, a)
    ensures Replayed(initial, Apply(config, s, a)) && Fenced(initial, Apply(config, s, a).history)
  {
    if a.CommitUpdate? {
      UpdateFenced(config, initial, s, a.t, Apply(config, s, a));
    } else if a.CommitReconcile? {
      ReconcileFenced(config, initial, s, a.t, Apply(config, s, a));
    } else if a.CommitSuperseded? || a.CommitCapture? {
      FlushFenced(config, initial, s, a);
    } else if a.Replace? || a.Rewrite? || a.Create? || a.AdvanceAccess? {
      WorkspaceFenced(config, initial, s, a);
    }
  }

  lemma {:induction false} RunFenced(config: Config, initial: Db, s: Sys, actions: seq<Action>, end: Sys)
    requires Sound(config.codec, s) && Replayed(initial, s) && Fenced(initial, s.history)
    requires Run(config, s, actions, end)
    ensures Replayed(initial, end) && Fenced(initial, end.history)
    decreases |actions|
  {
    if actions != [] {
      StepSound(config, s, actions[0]);
      StepFenced(config, initial, s, actions[0]);
      RunFenced(config, initial, Apply(config, s, actions[0]), actions[1..], end);
    }
  }

  /** In commit order, no acknowledged update follows an advance of its project's content or
    access epoch, or of its document's revision, that its connection did not know of. */
  lemma AcknowledgedUpdatesKnowEveryAdvance(config: Config, start: Sys, actions: seq<Action>, end: Sys, i: nat)
    requires Initial(start) && Run(config, start, actions, end)
    requires i < |end.history| && end.history[i].Acked?
    ensures var e := end.history[i];
            var before := end.history[..i];
            && ContentAt(start.db.content, before, e.key.project) == e.key.epoch
            && AccessAt(start.db.access, before, e.key.project) == e.access
            && RevisionAt(start.db.docs, before, e.key.document) == e.key.revision
  {
    InitialSound(config.codec, start);
    RunFenced(config, start.db, start, actions, end);
    assert KnewAll(start.db, end.history[..i], end.history[i]);
  }

  /** Every row in the table, whoever wrote it, carries its project's current content epoch. */
  lemma RowsCarryTheCurrentEpoch(config: Config, start: Sys, actions: seq<Action>, end: Sys, id: nat)
    requires Initial(start) && Run(config, start, actions, end) && id in end.db.updates
    ensures var key := end.db.updates[id].key;
            && key.project in end.db.content && key.epoch == end.db.content[key.project]
            && 0 < id < end.db.nextId
  {
    InitialSound(config.codec, start);
    RunSound(config, start, actions, end);
  }

  lemma {:induction false} RunSound(config: Config, s: Sys, actions: seq<Action>, end: Sys)
    requires Sound(config.codec, s) && Run(config, s, actions, end)
    ensures Sound(config.codec, end)
    decreases |actions|
  {
    if actions != [] {
      StepSound(config, s, actions[0]);
      RunSound(config, Apply(config, s, actions[0]), actions[1..], end);
    }
  }
}
