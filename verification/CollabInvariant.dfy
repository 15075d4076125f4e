/** What every step of every transaction keeps: the tables stay consistent, locks exclude
  each other, and whatever a transaction has read is still true when it commits. */
module CollabInvariant {
  import opened Wrappers
  import opened YjsState
  import opened CollabTables
  import opened CollabSystem

  /** `id` is still unused and exceeds everything stored for the document. */
  ghost predicate Reserved(db: Db, document: nat, id: nat) {
    && 0 < id < db.nextId && id !in db.updates
    && (forall i :: i in db.updates && db.updates[i].key.document == document ==> i < id)
    && (forall slot :: slot in db.snapshots && slot.document == document ==> db.snapshots[slot].upto < id)
  }

  /** The document is there and belongs to the project the key names. */
  predicate Owned(db: Db, key: DocKey) {
    key.document in db.docs && db.docs[key.document].project == key.project
  }

  /** The locks of a transaction guarantee that what it checked and read still holds. */
  ghost predicate TxFits(db: Db, retired: set<nat>, tx: Tx) {
    var key := tx.key;
    && (!tx.role.Capturer? ==> (key.document in db.docs || key.document in retired) && tx.documents <= {key.document})
    && (tx.content.Shared? ==>
          !tx.role.Capturer? && key.project in db.content && db.content[key.project] == key.epoch)
    && (tx.content.Exclusive? ==> tx.role.Capturer? && key.project in db.content)
    && (tx.accessHeld ==>
          tx.role.Writer? && tx.content.Shared?
          && key.project in db.access && db.access[key.project] == tx.role.access)
    && (tx.rowHeld ==>
          !tx.role.Capturer? && tx.content.Shared? && key.document in tx.documents && Matches(db, key)
          && (tx.role.Writer? ==> tx.accessHeld)
          && (tx.role.Bootstrapper? ==> tx.loaded.Some?))
    && (tx.drawn.Some? ==> tx.role.Writer? && tx.rowHeld && Reserved(db, key.document, tx.drawn.value))
    && (tx.seed.Some? ==>
          tx.role.Bootstrapper? && key.document in tx.documents
          && (key.document in db.docs ==> key.revision <= db.docs[key.document].revision)
          && (Matches(db, key) ==> db.docs[key.document].content == tx.seed.value))
    && (tx.loaded.Some? ==>
          !tx.role.Capturer? && key.document in tx.documents
          && (tx.role.Writer? ==> tx.drawn.Some?)
          && (tx.role.Bootstrapper? ==> tx.seed.Some?)
          && (Owned(db, key) ==> tx.loaded.value == Load(OwnView(db, tx), key)))
  }

  ghost predicate LocksExclude(s: Sys) {
    forall t, u :: t in s.txs && u in s.txs && t != u ==> Excludes(s.txs[t], s.txs[u])
  }

  predicate Excludes(tx: Tx, other: Tx) {
    && tx.documents !! other.documents
    && (tx.content.Exclusive? && tx.key.project == other.key.project ==> other.content.Unlocked?)
    && (tx.drawn.Some? && other.drawn.Some? ==> tx.drawn != other.drawn)
  }

  ghost predicate Sound(codec: Codec, s: Sys) {
    && Consistent(codec, s.db)
    && LocksExclude(s)
    && (forall t :: t in s.txs ==> TxFits(s.db, s.retired, s.txs[t]))
    && s.db.docs.Keys !! s.retired
  }

  // ---- steps that touch no table ----

  predicate TouchesNoTable(a: Action) {
    a.Begin? || a.LockContent? || a.LockAccess? || a.LockDocument? || a.LockRow? || a.ReadSeed? || a.LoadState?
  }

  lemma LocalStepFits(config: Config, s: Sys, a: Action)
    requires Sound(config.codec, s) && Enabled(s, a) && TouchesNoTable(a)
    ensures TxFits(s.db, s.retired, Apply(config, s, a).txs[a.t])
  {
    if a.t in s.txs {
      assert TxFits(s.db, s.retired, s.txs[a.t]);
    }
  }

  /** The lock a step takes is free of incompatible holders. */
  lemma LocalStepExcludes(config: Config, s: Sys, a: Action, tx': Tx, u: nat)
    requires LocksExclude(s) && Enabled(s, a) && TouchesNoTable(a) && tx' == Apply(config, s, a).txs[a.t]
    requires u in s.txs && u != a.t
    ensures Excludes(tx', s.txs[u]) && Excludes(s.txs[u], tx')
  {
    if a.t in s.txs {
      assert Excludes(s.txs[a.t], s.txs[u]) && Excludes(s.txs[u], s.txs[a.t]);
    }
  }

  lemma LocalStepLocks(config: Config, s: Sys, a: Action, s': Sys)
    requires LocksExclude(s) && Enabled(s, a) && TouchesNoTable(a) && s' == Apply(config, s, a)
    ensures LocksExclude(s') && s'.db == s.db && s'.retired == s.retired
    ensures a.t in s'.txs && s'.txs == s.txs[a.t := s'.txs[a.t]]
  {
    forall u | u in s.txs && u != a.t
      ensures Excludes(s'.txs[a.t], s.txs[u]) && Excludes(s.txs[u], s'.txs[a.t])
    {
      LocalStepExcludes(config, s, a, s'.txs[a.t], u);
    }
  }

  lemma OneTransactionSound(codec: Codec, s: Sys, s': Sys, t: nat)
    requires Sound(codec, s) && LocksExclude(s') && s'.db == s.db && s'.retired == s.retired
    requires t in s'.txs && s'.txs == s.txs[t := s'.txs[t]] && TxFits(s.db, s.retired, s'.txs[t])
    ensures Sound(codec, s')
  {
  }

  lemma LocalStepSound(config: Config, s: Sys, a: Action)
    requires Sound(config.codec, s) && Enabled(s, a) && TouchesNoTable(a)
    ensures Sound(config.codec, Apply(config, s, a))
  {
    var s' := Apply(config, s, a);
    LocalStepFits(config, s, a);
    LocalStepLocks(config, s, a, s');
    OneTransactionSound(config.codec, s, s', a.t);
  }

  lemma AbortSound(config: Config, s: Sys, t: nat)
    requires Sound(config.codec, s) && Enabled(s, Abort(t))
    ensures Sound(config.codec, Apply(config, s, Abort(t)))
  {
  }

  lemma DrawSound(config: Config, s: Sys, t: nat)
    requires Sound(config.codec, s) && Enabled(s, DrawId(t))
    ensures Sound(config.codec, Apply(config, s, DrawId(t)))
  {
    var s' := Apply(config, s, DrawId(t));
    forall u | u in s'.txs
      ensures TxFits(s'.db, s'.retired, s'.txs[u])
    {
      DrawFits(s, t, u);
    }
  }

  lemma DrawFits(s: Sys, t: nat, u: nat)
    requires 0 < s.db.nextId && RowsFit(s.db) && SnapshotsFit(s.db) && Enabled(s, DrawId(t)) && u in s.txs
    requires TxFits(s.db, s.retired, s.txs[u])
    ensures var db' := s.db.(nextId := s.db.nextId + 1);
            TxFits(db', s.retired, if u == t then s.txs[t].(drawn := Some(s.db.nextId)) else s.txs[u])
  {
    var db' := s.db.(nextId := s.db.nextId + 1);
    if u != t && s.txs[u].loaded.Some? {
      SameElsewhereLoads(OwnView(s.db, s.txs[u]), OwnView(db', s.txs[u]), {}, s.txs[u].key);
    }
  }
}
