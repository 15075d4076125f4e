/** Building runs: transactions that meet nobody's locks go through to their end
  (backend/src/collaboration/updates.rs, projection.rs and bootstrap.rs). */
module CollabRuns {
  import opened Wrappers
  import opened YjsState
  import opened CollabTables
  import opened CollabSystem
  import opened CollabInvariant
  import opened CollabCommits
  import opened CollabSteps
  import opened CollabFence

  lemma {:induction false} RunExtends(config: Config, start: Sys, actions: seq<Action>, s: Sys, a: Action)
    requires Run(config, start, actions, s) && Enabled(s, a)
    ensures Run(config, start, actions + [a], Apply(config, s, a))
    decreases |actions|
  {
    var longer := actions + [a];
    if actions == [] {
      assert longer[1..] == [];
      assert Run(config, Apply(config, s, a), [], Apply(config, s, a));
    } else {
      assert longer[1..] == actions[1..] + [a];
      RunExtends(config, Apply(config, start, actions[0]), actions[1..], s, a);
    }
  }

  lemma {:induction false} RunConcat(config: Config, start: Sys, first: seq<Action>, s: Sys, then_: seq<Action>, end: Sys)
    requires Run(config, start, first, s) && Run(config, s, then_, end)
    ensures Run(config, start, first + then_, end)
    decreases |first|
  {
    if first == [] {
      assert first + then_ == then_;
    } else {
      assert (first + then_)[1..] == first[1..] + then_;
      RunConcat(config, Apply(config, start, first[0]), first[1..], s, then_, end);
    }
  }

  /** A writer that has taken every lock and drawn the next identifier. */
  function Drawn(s: Sys, t: nat, role: Role, key: DocKey): Sys {
    s.(txs := s.txs[t := Tx(role, key, Shared, true, {key.document}, true, Some(s.db.nextId), None, None)],
       db := s.db.(nextId := s.db.nextId + 1))
  }

  function WriterWithAccess(role: Role, key: DocKey): Tx {
    Tx(role, key, Shared, true, {}, false, None, None, None)
  }

  lemma WriterLocksEpochs(config: Config, s: Sys, t: nat, role: Role, key: DocKey)
    requires t !in s.txs && Live(s.db, key) && NoExclusive(s, key.project, None) && Booted(s.history, key)
    requires role.Writer? && key.project in s.db.access && s.db.access[key.project] == role.access
    ensures Run(config, s, [Begin(t, role, key), LockContent(t), LockAccess(t)],
                s.(txs := s.txs[t := WriterWithAccess(role, key)]))
  {
    var begun := Apply(config, s, Begin(t, role, key));
    var content := Apply(config, begun, LockContent(t));
    var access := Apply(config, content, LockAccess(t));
    assert access == s.(txs := s.txs[t := WriterWithAccess(role, key)]);
    Three(config, s, Begin(t, role, key), begun, LockContent(t), content, LockAccess(t), access);
  }

  lemma Three(config: Config, s: Sys, a: Action, s1: Sys, b: Action, s2: Sys, c: Action, s3: Sys)
    requires Enabled(s, a) && s1 == Apply(config, s, a)
    requires Enabled(s1, b) && s2 == Apply(config, s1, b)
    requires Enabled(s2, c) && s3 == Apply(config, s2, c)
    ensures Run(config, s, [a, b, c], s3)
  {
    assert Run(config, s3, [], s3);
    assert [c][1..] == [] && [b, c][1..] == [c] && [a, b, c][1..] == [b, c];
    assert Run(config, s2, [c], s3);
    assert Run(config, s1, [b, c], s3);
  }

  lemma WriterLocksDocument(config: Config, s: Sys, t: nat, role: Role, key: DocKey)
    requires t in s.txs && s.txs[t] == WriterWithAccess(role, key) && role.Writer? && Live(s.db, key)
    requires forall u :: u in s.txs && u != t ==> key.document !in s.txs[u].documents
    ensures Run(config, s, [LockDocument(t, key.document), LockRow(t), DrawId(t)], Drawn(s, t, role, key))
  {
    var none: set<nat> := {};
    assert none + {key.document} == {key.document};
    var document := Apply(config, s, LockDocument(t, key.document));
    var row := Apply(config, document, LockRow(t));
    var drawn := Apply(config, row, DrawId(t));
    assert drawn == Drawn(s, t, role, key);
    Three(config, s, LockDocument(t, key.document), document, LockRow(t), row, DrawId(t), drawn);
  }

  /** A current writer whose locks nobody else holds gets as far as its identifier. */
  lemma WriterDraws(config: Config, s: Sys, t: nat, role: Role, key: DocKey) returns (actions: seq<Action>)
    requires t !in s.txs && Live(s.db, key) && NoExclusive(s, key.project, None) && Booted(s.history, key)
    requires forall u :: u in s.txs ==> key.document !in s.txs[u].documents
    requires role.Writer? && key.project in s.db.access && s.db.access[key.project] == role.access
    ensures Run(config, s, actions, Drawn(s, t, role, key))
  {
    var locked := s.(txs := s.txs[t := WriterWithAccess(role, key)]);
    var first := [Begin(t, role, key), LockContent(t), LockAccess(t)];
    var second := [LockDocument(t, key.document), LockRow(t), DrawId(t)];
    WriterLocksEpochs(config, s, t, role, key);
    WriterLocksDocument(config, locked, t, role, key);
    assert Drawn(locked, t, role, key) == Drawn(s, t, role, key);
    RunConcat(config, s, first, locked, second, Drawn(s, t, role, key));
    actions := first + second;
  }

  // ---- projection ----

  /** Somewhere along the run a reconciliation of `key` commits. */
  ghost predicate Reconciles(config: Config, s: Sys, actions: seq<Action>, key: DocKey)
    decreases |actions|
  {
    && actions != [] && Enabled(s, actions[0])
    && ((actions[0].CommitReconcile? && s.txs[actions[0].t].key == key)
        || Reconciles(config, Apply(config, s, actions[0]), actions[1..], key))
  }

  function Projecting(key: DocKey, loaded: Loaded): Tx {
    Tx(Projector, key, Shared, false, {key.document}, true, None, None, Some(loaded))
  }

  lemma ProjectorLoads(config: Config, s: Sys, t: nat, key: DocKey)
    requires t !in s.txs && Live(s.db, key) && NoExclusive(s, key.project, None) && Written(s.history, key)
    requires forall u :: u in s.txs ==> key.document !in s.txs[u].documents
    ensures Run(config, s, [Begin(t, Projector, key), LockContent(t), LockDocument(t, key.document)],
                s.(txs := s.txs[t := Projecting(key, Load(s.db, key)).(rowHeld := false, loaded := None)]))
  {
    var none: set<nat> := {};
    assert none + {key.document} == {key.document};
    var begun := Apply(config, s, Begin(t, Projector, key));
    var content := Apply(config, begun, LockContent(t));
    var document := Apply(config, content, LockDocument(t, key.document));
    assert document == s.(txs := s.txs[t := Projecting(key, Load(s.db, key)).(rowHeld := false, loaded := None)]);
    Three(config, s, Begin(t, Projector, key), begun, LockContent(t), content, LockDocument(t, key.document), document);
  }

  lemma ProjectorCommits(config: Config, s: Sys, t: nat, key: DocKey)
    requires t in s.txs && Live(s.db, key)
    requires s.txs[t] == Projecting(key, Load(s.db, key)).(rowHeld := false, loaded := None)
    ensures Run(config, s, [LoadState(t), LockRow(t), CommitReconcile(t)],
                s.(txs := s.txs - {t}, db := Reconciled(config, s.db, key, Load(s.db, key), None)))
    ensures Reconciles(config, s, [LoadState(t), LockRow(t), CommitReconcile(t)], key)
  {
    var loaded := Apply(config, s, LoadState(t));
    var row := Apply(config, loaded, LockRow(t));
    assert row == s.(txs := s.txs[t := Projecting(key, Load(s.db, key))]);
    var done := Apply(config, row, CommitReconcile(t));
    assert done.txs == s.txs - {t};
    Three(config, s, LoadState(t), loaded, LockRow(t), row, CommitReconcile(t), done);
    ReconcilesLater(config, s, [LoadState(t), LockRow(t)], row, [CommitReconcile(t)], key) by {
      assert Run(config, row, [], row);
      assert [LockRow(t)][1..] == [] && [LoadState(t), LockRow(t)][1..] == [LockRow(t)];
      assert Run(config, loaded, [LockRow(t)], row);
    }
    assert [LoadState(t), LockRow(t)] + [CommitReconcile(t)] == [LoadState(t), LockRow(t), CommitReconcile(t)];
  }

  lemma ProjectorRuns(config: Config, s: Sys, t: nat, key: DocKey) returns (actions: seq<Action>, flushed: Sys)
    requires t !in s.txs && Live(s.db, key) && NoExclusive(s, key.project, None) && Written(s.history, key)
    requires forall u :: u in s.txs ==> key.document !in s.txs[u].documents
    ensures Run(config, s, actions, flushed) && Reconciles(config, s, actions, key)
    ensures flushed == s.(db := Reconciled(config, s.db, key, Load(s.db, key), None))
  {
    var loading := s.(txs := s.txs[t := Projecting(key, Load(s.db, key)).(rowHeld := false, loaded := None)]);
    var first := [Begin(t, Projector, key), LockContent(t), LockDocument(t, key.document)];
    var second := [LoadState(t), LockRow(t), CommitReconcile(t)];
    ProjectorLoads(config, s, t, key);
    ProjectorCommits(config, loading, t, key);
    flushed := loading.(txs := loading.txs - {t}, db := Reconciled(config, s.db, key, Load(s.db, key), None));
    assert flushed.txs == s.txs;
    RunConcat(config, s, first, loading, second, flushed);
    ReconcilesLater(config, s, first, loading, second, key);
    actions := first + second;
  }

  lemma {:induction false} ReconcilesLater(config: Config, s: Sys, first: seq<Action>, mid: Sys, then_: seq<Action>, key: DocKey)
    requires Run(config, s, first, mid) && Reconciles(config, mid, then_, key)
    ensures Reconciles(config, s, first + then_, key)
    decreases |first|
  {
    if first == [] {
      assert first + then_ == then_;
    } else {
      assert (first + then_)[1..] == first[1..] + then_;
      ReconcilesLater(config, Apply(config, s, first[0]), first[1..], mid, then_, key);
    }
  }

  lemma {:induction false} ReconcilesSooner(config: Config, s: Sys, actions: seq<Action>, rest: seq<Action>, key: DocKey)
    requires Reconciles(config, s, actions, key)
    ensures Reconciles(config, s, actions + rest, key)
    decreases |actions|
  {
    assert (actions + rest)[1..] == actions[1..] + rest;
    if !(actions[0].CommitReconcile? && s.txs[actions[0].t].key == key) {
      ReconcilesSooner(config, Apply(config, s, actions[0]), actions[1..], rest, key);
    }
  }

  // ---- bootstrap ----

  function Booting(key: DocKey, text: string): Tx {
    Tx(Bootstrapper, key, Unlocked, false, {key.document}, false, None, Some(text), None)
  }

  lemma BootstrapperReads(config: Config, s: Sys, t: nat, key: DocKey)
    requires t !in s.txs && Live(s.db, key)
    requires forall u :: u in s.txs ==> key.document !in s.txs[u].documents
    ensures Run(config, s, [Begin(t, Bootstrapper, key), LockDocument(t, key.document), ReadSeed(t)],
                s.(txs := s.txs[t := Booting(key, s.db.docs[key.document].content)]))
  {
    var none: set<nat> := {};
    assert none + {key.document} == {key.document};
    var begun := Apply(config, s, Begin(t, Bootstrapper, key));
    var document := Apply(config, begun, LockDocument(t, key.document));
    var read := Apply(config, document, ReadSeed(t));
    assert read == s.(txs := s.txs[t := Booting(key, s.db.docs[key.document].content)]);
    Three(config, s, Begin(t, Bootstrapper, key), begun, LockDocument(t, key.document), document, ReadSeed(t), read);
  }

  lemma BootstrapperLocks(config: Config, s: Sys, t: nat, key: DocKey, text: string) returns (ready: Sys)
    requires t in s.txs && s.txs[t] == Booting(key, text) && Live(s.db, key) && NoExclusive(s, key.project, Some(t))
    ensures Run(config, s, [LoadState(t), LockContent(t), LockRow(t)], ready)
    ensures ready.db == s.db && ready.history == s.history && ready.txs.Keys == s.txs.Keys
    ensures Enabled(ready, CommitReconcile(t))
    ensures ready.txs[t].role.Bootstrapper? && ready.txs[t].key == key
  {
    var loaded := Apply(config, s, LoadState(t));
    var content := Apply(config, loaded, LockContent(t));
    ready := Apply(config, content, LockRow(t));
    Three(config, s, LoadState(t), loaded, LockContent(t), content, LockRow(t), ready);
  }

  lemma BootstrapperRuns(config: Config, s: Sys, t: nat, key: DocKey) returns (actions: seq<Action>, ready: Sys)
    requires s.txs == map[] && Live(s.db, key)
    ensures Run(config, s, actions, ready)
    ensures ready.db == s.db && ready.history == s.history && ready.txs.Keys == {t}
    ensures Enabled(ready, CommitReconcile(t))
    ensures ready.txs[t].role.Bootstrapper? && ready.txs[t].key == key
  {
    var text := s.db.docs[key.document].content;
    var reading := s.(txs := s.txs[t := Booting(key, text)]);
    var first := [Begin(t, Bootstrapper, key), LockDocument(t, key.document), ReadSeed(t)];
    BootstrapperReads(config, s, t, key);
    ready := BootstrapperLocks(config, reading, t, key, text);
    RunConcat(config, s, first, reading, [LoadState(t), LockContent(t), LockRow(t)], ready);
    actions := first + [LoadState(t), LockContent(t), LockRow(t)];
  }

  /** A first socket bootstraps a document that nobody else works on. */
  lemma SocketBoots(config: Config, s: Sys, t: nat, key: DocKey) returns (actions: seq<Action>, booted: Sys)
    requires Sound(config.codec, s) && s.txs == map[] && Live(s.db, key)
    ensures Run(config, s, actions, booted) && Sound(config.codec, booted)
    ensures booted.txs == map[] && Booted(booted.history, key)
    ensures forall k :: Booted(s.history, k) ==> Booted(booted.history, k)
    ensures SameElsewhere(s.db, booted.db, {key.document}) && booted.db.updates.Keys <= s.db.updates.Keys
  {
    var ready;
    actions, ready := BootstrapperRuns(config, s, t, key);
    RunSound(config, s, actions, ready);
    booted := Apply(config, ready, CommitReconcile(t));
    BootstrapCommits(config, ready, t, booted);
    StepSound(config, ready, CommitReconcile(t));
    RunExtends(config, s, actions, ready, CommitReconcile(t));
    actions := actions + [CommitReconcile(t)];
  }

  lemma BootstrapCommits(config: Config, s: Sys, t: nat, s': Sys)
    requires Sound(config.codec, s) && Enabled(s, CommitReconcile(t)) && s' == Apply(config, s, CommitReconcile(t))
    requires s.txs.Keys == {t} && s.txs[t].role.Bootstrapper?
    ensures s'.txs == map[] && Booted(s'.history, s.txs[t].key)
    ensures forall k :: Booted(s.history, k) ==> Booted(s'.history, k)
    ensures SameElsewhere(s.db, s'.db, {s.txs[t].key.document}) && s'.db.updates.Keys <= s.db.updates.Keys
  {
    ReconcileCommitEffect(config, s, t);
    var e := s'.history[|s.history|];
    assert e in s'.history && e.Bootstrapped? && e.key == s.txs[t].key;
    forall k | Booted(s.history, k)
      ensures Booted(s'.history, k)
    {
      var b :| b in s.history && b.Bootstrapped? && b.key == k;
      assert b in s'.history;
    }
  }
}
