/** What an ordinary flush covers. Its target is the largest identifier committed so far, but
  identifiers are drawn before they commit, so a smaller one may commit later. A flush is
  complete exactly when whoever still has such an identifier in flight works on a document
  that the flush reconciles anyway, and so has to wait for. */
module CollabFlush {
  import opened Wrappers
  import opened YjsState
  import opened CollabTables
  import opened CollabSystem
  import opened CollabInvariant
  import opened CollabCommits
  import opened CollabSteps
  import opened CollabFence
  import opened CollabBarrier
  import opened CollabRuns

  /** A plain update that drew an identifier up to `target` and may still commit. */
  predicate DrewUpTo(tx: Tx, target: nat) {
    tx.role.Writer? && tx.role.kind.Update? && tx.drawn.Some? && tx.drawn.value <= target
  }

  /** The flush finds an uncovered row of the key up to the target. */
  ghost predicate Outstanding(db: Db, project: nat, target: nat, key: DocKey) {
    key.project == project && exists id :: id in Pending(db, key) && id <= target
  }

  /** Every update of the project up to `target` is in the snapshot of its document, if still current. */
  ghost predicate Covered(db: Db, project: nat, target: nat) {
    forall id | id in db.updates && id <= target && db.updates[id].key.project == project
                && Live(db, db.updates[id].key) ::
      id <= Upto(db, db.updates[id].key)
  }

  /** A run, with whatever else happens in it, in which a flush that listed its documents at the
    start reconciles each of them that is still current at the end. */
  ghost predicate FlushRun(config: Config, listed: Sys, during: seq<Action>, end: Sys, project: nat, target: nat) {
    && Run(config, listed, during, end)
    && forall key | Outstanding(listed.db, project, target, key) && Live(end.db, key) ::
         Reconciles(config, listed, during, key)
  }

  ghost predicate FlushCovers(config: Config, listed: Sys, project: nat, target: nat) {
    forall during, end :: FlushRun(config, listed, during, end, project, target) ==> Covered(end.db, project, target)
  }

  /** Every plain update of the project in flight up to the target is on a listed document. */
  ghost predicate InFlightIsListed(listed: Sys, project: nat, target: nat) {
    forall t :: t in listed.txs && listed.txs[t].key.project == project && DrewUpTo(listed.txs[t], target) ==>
      Outstanding(listed.db, project, target, listed.txs[t].key)
  }

  // ---- where rows come from ----

  predicate RowsWithin(db: Db, db': Db) {
    forall id :: id in db'.updates ==> id in db.updates && db'.updates[id] == db.updates[id]
  }

  lemma {:induction false} FlushedRows(config: Config, db: Db, keys: seq<DocKey>)
    ensures RowsWithin(db, Flushed(config, db, keys))
    decreases |keys|
  {
    if keys != [] {
      assert RowsWithin(db, FlushOne(config, db, keys[0]));
      FlushedRows(config, FlushOne(config, db, keys[0]), keys[1..]);
    }
  }

  lemma ReconciledRows(config: Config, db: Db, key: DocKey, loaded: Loaded, seed: Option<Ops>)
    ensures RowsWithin(db, Reconciled(config, db, key, loaded, seed))
    ensures Reconciled(config, db, key, loaded, seed).nextId == db.nextId
  {
  }

  lemma UpdateRows(config: Config, db: Db, tx: Tx, id: nat)
    requires tx.role.Writer? && tx.drawn.Some? && (tx.role.kind.Sync? ==> tx.loaded.Some?)
    requires id in UpdateCommitted(config, db, tx).updates
    ensures var row := UpdateCommitted(config, db, tx).updates[id];
            (id in db.updates && row == db.updates[id] && Some(id) != tx.drawn) || (tx.drawn == Some(id) && row.key == tx.key)
  {
    if tx.role.kind.Sync? {
      ReconciledRows(config, OwnView(db, tx), tx.key, tx.loaded.value, None);
    }
  }

  lemma OtherRows(config: Config, s: Sys, a: Action, s': Sys)
    requires Enabled(s, a) && !a.CommitUpdate? && !a.CommitCapture? && s' == Apply(config, s, a)
    ensures RowsWithin(s.db, s'.db)
  {
    if a.CommitReconcile? {
      var tx := s.txs[a.t];
      ReconciledRows(config, OwnView(s.db, tx), tx.key, tx.loaded.value, SeedFor(config.codec, tx));
    }
  }

  /** A step keeps rows as they are, and only an update commit adds one: its own. */
  lemma RowOrigin(config: Config, s: Sys, a: Action, id: nat)
    requires Enabled(s, a) && id in Apply(config, s, a).db.updates
    ensures var row := Apply(config, s, a).db.updates[id];
            || (id in s.db.updates && row == s.db.updates[id])
            || (a.CommitUpdate? && s.txs[a.t].drawn == Some(id) && row.key == s.txs[a.t].key)
  {
    if a.CommitCapture? {
      FlushedRows(config, s.db, a.keys);
    } else if a.CommitUpdate? {
      UpdateRows(config, s.db, s.txs[a.t], id);
    } else {
      OtherRows(config, s, a, Apply(config, s, a));
    }
  }

  lemma SyncCoversItself(config: Config, s: Sys, t: nat)
    requires Sound(config.codec, s) && Enabled(s, CommitUpdate(t)) && s.txs[t].role.kind.Sync?
    ensures s.txs[t].drawn.value <= Upto(Apply(config, s, CommitUpdate(t)).db, s.txs[t].key)
  {
    var tx := s.txs[t];
    assert TxFits(s.db, s.retired, tx);
    InsertEffect(config.codec, s.db, tx.drawn.value, Row(tx.key, tx.role.kind, tx.role.ops, tx.role.contributor));
    SyncStores(config, OwnView(s.db, tx), tx.key, tx.drawn.value);
  }

  lemma PlainUpdateIsUncovered(config: Config, s: Sys, t: nat)
    requires Sound(config.codec, s) && Enabled(s, CommitUpdate(t)) && s.txs[t].role.kind.Update?
    ensures var db' := Apply(config, s, CommitUpdate(t)).db;
            var id := s.txs[t].drawn.value;
            id in db'.updates && db'.updates[id].key == s.txs[t].key
            && Live(db', s.txs[t].key) && id > Upto(db', s.txs[t].key)
  {
    assert TxFits(s.db, s.retired, s.txs[t]);
  }

  /** An identifier is drawn once, and it is the next one. */
  lemma DrawnBefore(config: Config, s: Sys, a: Action, s': Sys, t: nat)
    requires Enabled(s, a) && s' == Apply(config, s, a) && t in s'.txs && s'.txs[t].drawn.Some?
    ensures s'.txs[t].drawn.value == s.db.nextId
            || (t in s.txs && s'.txs[t].drawn == s.txs[t].drawn
                && s'.txs[t].role == s.txs[t].role && s'.txs[t].key == s.txs[t].key)
  {
  }

  lemma SequenceGrows(config: Config, s: Sys, a: Action, s': Sys)
    requires Enabled(s, a) && s' == Apply(config, s, a)
    ensures s.db.nextId <= s'.db.nextId
  {
    if a.CommitCapture? {
      FlushKeepsSequence(config, s.db, a.keys);
    } else if a.CommitReconcile? {
      var tx := s.txs[a.t];
      ReconciledRows(config, OwnView(s.db, tx), tx.key, tx.loaded.value, SeedFor(config.codec, tx));
    } else if a.CommitUpdate? && s.txs[a.t].role.kind.Sync? {
      var tx := s.txs[a.t];
      ReconciledRows(config, OwnView(s.db, tx), tx.key, tx.loaded.value, None);
    }
  }

  lemma {:induction false} FlushKeepsSequence(config: Config, db: Db, keys: seq<DocKey>)
    ensures Flushed(config, db, keys).nextId == db.nextId
    decreases |keys|
  {
    if keys != [] {
      FlushKeepsSequence(config, FlushOne(config, db, keys[0]), keys[1..]);
    }
  }

  // ---- one document ----

  /** No plain update of the key is in flight up to the target, and its rows up to it are covered. */
  ghost predicate Settled(s: Sys, key: DocKey, target: nat) {
    && (forall t :: t in s.txs && s.txs[t].key == key ==> !DrewUpTo(s.txs[t], target))
    && (forall id :: id in s.db.updates && s.db.updates[id].key == key && id <= target ==> id <= Upto(s.db, key))
  }

  lemma SettledStep(config: Config, s: Sys, a: Action, s': Sys, key: DocKey, target: nat)
    requires Sound(config.codec, s) && Enabled(s, a) && s' == Apply(config, s, a)
    requires target < s.db.nextId && Live(s.db, key) && Live(s'.db, key) && Settled(s, key, target)
    ensures Settled(s', key, target)
  {
    forall t | t in s'.txs && s'.txs[t].key == key
      ensures !DrewUpTo(s'.txs[t], target)
    {
      if s'.txs[t].drawn.Some? {
        DrawnBefore(config, s, a, s', t);
      }
    }
    forall id | id in s'.db.updates && s'.db.updates[id].key == key && id <= target
      ensures id <= Upto(s'.db, key)
    {
      RowStaysCovered(config, s, a, s', key, target, id);
    }
  }

  lemma RowStaysCovered(config: Config, s: Sys, a: Action, s': Sys, key: DocKey, target: nat, id: nat)
    requires Sound(config.codec, s) && Enabled(s, a) && s' == Apply(config, s, a)
    requires Live(s.db, key) && Live(s'.db, key) && Settled(s, key, target)
    requires id in s'.db.updates && s'.db.updates[id].key == key && id <= target
    ensures id <= Upto(s'.db, key)
  {
    RowOrigin(config, s, a, id);
    if id in s.db.updates && s.db.updates[id].key == key {
      StepStores(config, s, a, key, id);
    } else {
      assert !DrewUpTo(s.txs[a.t], target);
      SyncCoversItself(config, s, a.t);
    }
  }

  /** A reconciliation settles its document: it covers every row, and the document lock it holds
    means that nobody else has drawn an identifier for it. */
  lemma ReconcileSettles(config: Config, s: Sys, t: nat, target: nat)
    requires Sound(config.codec, s) && Enabled(s, CommitReconcile(t))
    ensures Settled(Apply(config, s, CommitReconcile(t)), s.txs[t].key, target)
  {
    var s' := Apply(config, s, CommitReconcile(t));
    var key := s.txs[t].key;
    ReconcileCommitEffect(config, s, t);
    assert TxFits(s.db, s.retired, s.txs[t]);
    forall u | u in s'.txs && s'.txs[u].key == key
      ensures !DrewUpTo(s'.txs[u], target)
    {
      assert TxFits(s.db, s.retired, s.txs[u]) && Excludes(s.txs[u], s.txs[t]);
    }
    forall id | id in s'.db.updates && s'.db.updates[id].key == key
      ensures id <= Upto(s'.db, key)
    {
      assert id !in Pending(s'.db, key);
    }
  }

  lemma {:induction false} SettledCovers(config: Config, s: Sys, actions: seq<Action>, end: Sys, key: DocKey, target: nat)
    requires Sound(config.codec, s) && Run(config, s, actions, end) && target < s.db.nextId
    requires Live(s.db, key) && Live(end.db, key) && Settled(s, key, target)
    ensures Settled(end, key, target)
    decreases |actions|
  {
    if actions != [] {
      var s' := Apply(config, s, actions[0]);
      LiveThroughout(config, s, actions, end, key);
      SettledStep(config, s, actions[0], s', key, target);
      StepSound(config, s, actions[0]);
      SequenceGrows(config, s, actions[0], s');
      SettledCovers(config, s', actions[1..], end, key, target);
    }
  }

  lemma LiveThroughout(config: Config, s: Sys, actions: seq<Action>, end: Sys, key: DocKey)
    requires Sound(config.codec, s) && Run(config, s, actions, end) && actions != []
    requires Live(s.db, key) && Live(end.db, key)
    ensures Live(Apply(config, s, actions[0]).db, key)
  {
    var s' := Apply(config, s, actions[0]);
    StepSound(config, s, actions[0]);
    LiveOrSuperseded(config, s, actions[0], key);
    if !Live(s'.db, key) {
      SupersededForGood(config, s', actions[1..], end, key);
      assert false;
    }
  }

  /** Whoever had drawn an identifier for the document commits before the flush reconciles it. */
  lemma {:induction false} ReconciledIsSettled(config: Config, s: Sys, actions: seq<Action>, end: Sys, key: DocKey, target: nat)
    requires Sound(config.codec, s) && Run(config, s, actions, end) && Reconciles(config, s, actions, key)
    requires target < s.db.nextId && Live(s.db, key) && Live(end.db, key)
    ensures Settled(end, key, target)
    decreases |actions|
  {
    var s' := Apply(config, s, actions[0]);
    LiveThroughout(config, s, actions, end, key);
    StepSound(config, s, actions[0]);
    SequenceGrows(config, s, actions[0], s');
    if actions[0].CommitReconcile? && s.txs[actions[0].t].key == key {
      ReconcileSettles(config, s, actions[0].t, target);
      SettledCovers(config, s', actions[1..], end, key, target);
    } else {
      ReconciledIsSettled(config, s', actions[1..], end, key, target);
    }
  }

  // ---- the flush is complete ----

  lemma ListedFlushCovers(config: Config, listed: Sys, during: seq<Action>, end: Sys, project: nat, target: nat)
    requires Sound(config.codec, listed) && FlushRun(config, listed, during, end, project, target)
    requires target < listed.db.nextId && InFlightIsListed(listed, project, target)
    ensures Covered(end.db, project, target)
  {
    forall id | id in end.db.updates && id <= target && end.db.updates[id].key.project == project
                && Live(end.db, end.db.updates[id].key)
      ensures id <= Upto(end.db, end.db.updates[id].key)
    {
      var key := end.db.updates[id].key;
      if Live(listed.db, key) {
        ListedOrSettled(config, listed, during, end, project, target, key);
      } else {
        NotYetCurrent(config, listed, during, end, target, key);
      }
    }
  }

  lemma ListedOrSettled(config: Config, listed: Sys, during: seq<Action>, end: Sys, project: nat, target: nat, key: DocKey)
    requires Sound(config.codec, listed) && FlushRun(config, listed, during, end, project, target)
    requires target < listed.db.nextId && InFlightIsListed(listed, project, target)
    requires key.project == project && Live(listed.db, key) && Live(end.db, key)
    ensures Settled(end, key, target)
  {
    if Outstanding(listed.db, project, target, key) {
      ReconciledIsSettled(config, listed, during, end, key, target);
    } else {
      forall id | id in listed.db.updates && listed.db.updates[id].key == key && id <= target
        ensures id <= Upto(listed.db, key)
      {
        assert id !in Pending(listed.db, key);
      }
      assert Settled(listed, key, target);
      SettledCovers(config, listed, during, end, key, target);
    }
  }

  /** A key that becomes current only later has neither rows nor writers yet. */
  lemma {:induction false} NotYetCurrent(config: Config, s: Sys, actions: seq<Action>, end: Sys, target: nat, key: DocKey)
    requires Sound(config.codec, s) && Run(config, s, actions, end) && target < s.db.nextId
    requires !Live(s.db, key) && Live(end.db, key)
    ensures Settled(end, key, target)
    decreases |actions|
  {
    if actions != [] {
      var s' := Apply(config, s, actions[0]);
      StepSound(config, s, actions[0]);
      SequenceGrows(config, s, actions[0], s');
      if Live(s'.db, key) {
        BecomesCurrent(config, s, actions[0], s', target, key);
        SettledCovers(config, s', actions[1..], end, key, target);
      } else {
        NotYetCurrent(config, s', actions[1..], end, target, key);
      }
    }
  }

  lemma BecomesCurrent(config: Config, s: Sys, a: Action, s': Sys, target: nat, key: DocKey)
    requires Sound(config.codec, s) && Sound(config.codec, s') && Enabled(s, a) && s' == Apply(config, s, a)
    requires target < s.db.nextId && !Live(s.db, key) && Live(s'.db, key)
    ensures Settled(s', key, target)
  {
    forall t | t in s'.txs && s'.txs[t].key == key
      ensures !DrewUpTo(s'.txs[t], target)
    {
      if s'.txs[t].drawn.Some? {
        DrawnBefore(config, s, a, s', t);
        assert t in s.txs ==> TxFits(s.db, s.retired, s.txs[t]);
      }
    }
    forall id | id in s'.db.updates
      ensures s'.db.updates[id].key != key
    {
      NoRowBeforeCurrent(config, s, a, s', key, id);
    }
  }

  lemma NoRowBeforeCurrent(config: Config, s: Sys, a: Action, s': Sys, key: DocKey, id: nat)
    requires Sound(config.codec, s) && Enabled(s, a) && s' == Apply(config, s, a)
    requires !Live(s.db, key) && Live(s'.db, key) && id in s'.db.updates
    ensures s'.db.updates[id].key != key
  {
    RowOrigin(config, s, a, id);
    if id in s.db.updates && s.db.updates[id].key == key {
      assert Superseded(s, key);
      SupersededStays(config, s, a, key);
    } else if a.CommitUpdate? {
      UpdateEffect(config, s, a.t);
    }
  }
}
