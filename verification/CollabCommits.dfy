/** The commits of durable collaboration: each keeps the system sound and changes what is
  durable exactly as its meaning says. */
module CollabCommits {
  import opened Wrappers
  import opened YjsState
  import opened CollabTables
  import opened CollabSystem
  import opened CollabInvariant

  // ---- what a commit means for the other transactions ----

  /** A commit confined to documents it holds leaves every other transaction's knowledge true. */
  lemma OthersFit(db: Db, db': Db, retired: set<nat>, touched: set<nat>, added: Option<nat>, tx: Tx)
    requires TxFits(db, retired, tx) && SameElsewhere(db, db', touched)
    requires tx.documents !! touched
    requires forall id :: id in db'.updates ==> id in db.updates || Some(id) == added
    requires tx.drawn.Some? ==> tx.drawn != added
    ensures TxFits(db', retired, tx)
  {
    OthersReserve(db, db', touched, added, tx);
    if tx.loaded.Some? {
      OthersLoad(db, db', touched, tx);
    }
  }

  lemma OthersReserve(db: Db, db': Db, touched: set<nat>, added: Option<nat>, tx: Tx)
    requires SameElsewhere(db, db', touched)
    requires tx.drawn.Some? ==> tx.key.document !in touched && Reserved(db, tx.key.document, tx.drawn.value)
    requires forall id :: id in db'.updates ==> id in db.updates || Some(id) == added
    requires tx.drawn.Some? ==> tx.drawn != added
    ensures tx.drawn.Some? ==> Reserved(db', tx.key.document, tx.drawn.value)
  {
  }

  lemma InsertElsewhere(db: Db, db': Db, touched: set<nat>, id: nat, row: Row)
    requires SameRowsElsewhere(db, db', touched)
    ensures SameRowsElsewhere(InsertRow(db, id, row), InsertRow(db', id, row), touched)
  {
  }

  lemma ClearElsewhere(db: Db, db': Db, touched: set<nat>, key: DocKey)
    requires SameRowsElsewhere(db, db', touched)
    ensures SameRowsElsewhere(ClearSupersededRevisions(db, key), ClearSupersededRevisions(db', key), touched)
  {
  }

  lemma OthersLoad(db: Db, db': Db, touched: set<nat>, tx: Tx)
    requires SameElsewhere(db, db', touched)
    requires tx.key.document !in touched
    ensures Load(OwnView(db', tx), tx.key) == Load(OwnView(db, tx), tx.key)
  {
    match tx.role {
    case Writer(kind, ops, _, contributor) =>
      if tx.drawn.Some? {
        InsertElsewhere(db, db', touched, tx.drawn.value, Row(tx.key, kind, ops, contributor));
      }
    case Bootstrapper =>
      ClearElsewhere(db, db', touched, tx.key);
    case _ =>
    }
    SameElsewhereLoads(OwnView(db, tx), OwnView(db', tx), touched, tx.key);
  }

  lemma CommitSound(codec: Codec, s: Sys, t: nat, db': Db, added: Option<nat>, history: seq<Event>)
    requires Sound(codec, s) && t in s.txs
    requires SameElsewhere(s.db, db', s.txs[t].documents) && Consistent(codec, db')
    requires forall id :: id in db'.updates ==> id in s.db.updates || Some(id) == added
    requires added == None || added == s.txs[t].drawn
    ensures Sound(codec, s.(db := db', txs := s.txs - {t}, history := history))
  {
    forall u | u in s.txs - {t}
      ensures TxFits(db', s.retired, s.txs[u])
    {
      OthersFit(s.db, db', s.retired, s.txs[t].documents, added, s.txs[u]);
    }
  }

  // ---- update admission ----

  lemma InsertEffect(codec: Codec, db: Db, id: nat, row: Row)
    requires Consistent(codec, db) && Live(db, row.key) && Reserved(db, row.key.document, id)
    ensures var db' := InsertRow(db, id, row);
            && Consistent(codec, db') && SameElsewhere(db, db', {row.key.document})
            && Durable(db', row.key) == Durable(db, row.key) + row.ops
            && (forall key: DocKey :: key != row.key ==> Durable(db', key) == Durable(db, key))
  {
    var db' := InsertRow(db, id, row);
    forall key: DocKey
      ensures Durable(db', key) == Durable(db, key) + (if key == row.key then row.ops else {})
    {
      assert Upto(db', key) == Upto(db, key) && Compacted(db', key) == Compacted(db, key);
      if key == row.key {
        assert Pending(db', key) == Pending(db, key) + {id};
        OpsOfInserted(db.updates, Pending(db, key), id, row);
      } else {
        assert Pending(db', key) == Pending(db, key);
        OpsOfSame(db.updates, db'.updates, Pending(db, key));
      }
    }
  }

  lemma OpsOfInserted(updates: map<nat, Row>, ids: set<nat>, id: nat, row: Row)
    requires id !in updates && ids <= updates.Keys
    ensures OpsOf(updates[id := row], ids + {id}) == OpsOf(updates, ids) + row.ops
  {
    var updates' := updates[id := row];
    forall op | op in OpsOf(updates, ids) + row.ops
      ensures op in OpsOf(updates', ids + {id})
    {
      if op in row.ops {
        assert id in updates' && updates'[id].ops == row.ops;
      } else {
        var i :| i in ids && i in updates && op in updates[i].ops;
        assert updates'[i] == updates[i];
      }
    }
  }

  /** An acknowledged update adds exactly its operations to what is durable of its document. */
  lemma UpdateEffect(config: Config, s: Sys, t: nat)
    requires Sound(config.codec, s) && Enabled(s, CommitUpdate(t))
    ensures var tx := s.txs[t];
            var db' := UpdateCommitted(config, s.db, tx);
            && Live(s.db, tx.key)
            && Consistent(config.codec, db') && SameElsewhere(s.db, db', {tx.key.document})
            && Durable(db', tx.key) == Durable(s.db, tx.key) + tx.role.ops
            && (forall id :: id in db'.updates ==> id in s.db.updates || Some(id) == tx.drawn)
  {
    var tx := s.txs[t];
    assert TxFits(s.db, s.retired, tx);
    var inserted := OwnView(s.db, tx);
    InsertEffect(config.codec, s.db, tx.drawn.value, Row(tx.key, tx.role.kind, tx.role.ops, tx.role.contributor));
    if tx.role.kind.Sync? {
      ReconcileEffect(config, inserted, tx.key, None);
      SameElsewhereChains(s.db, inserted, UpdateCommitted(config, s.db, tx), {tx.key.document});
    } else {
      PruneKeepsDurable(inserted, tx.key, tx.drawn.value, config.retention, tx.key);
      PruneFits(config.codec, inserted, tx.key, tx.drawn.value, config.retention);
      SameElsewhereChains(s.db, inserted, UpdateCommitted(config, s.db, tx), {tx.key.document});
    }
  }

  // ---- projection and bootstrap ----

  lemma ClearSupersededEffect(codec: Codec, db: Db, key: DocKey)
    requires Consistent(codec, db) && Matches(db, key)
    ensures var db' := ClearSupersededRevisions(db, key);
            && Consistent(codec, db') && SameElsewhere(db, db', {key.document})
            && Load(db', key) == Load(db, key) && Durable(db', key) == Durable(db, key)
            && db'.updates.Keys <= db.updates.Keys
  {
    var db' := ClearSupersededRevisions(db, key);
    assert Upto(db', key) == Upto(db, key) && Compacted(db', key) == Compacted(db, key);
    assert Pending(db', key) == Pending(db, key);
    OpsOfSame(db.updates, db'.updates, Pending(db, key));
  }

  /** Projection keeps what is durable; a first bootstrap adds the canonical seed. */
  lemma ReconcileCommitEffect(config: Config, s: Sys, t: nat)
    requires Sound(config.codec, s) && Enabled(s, CommitReconcile(t))
    ensures var tx := s.txs[t];
            var seed := SeedFor(config.codec, tx);
            var db' := Apply(config, s, CommitReconcile(t)).db;
            && Live(s.db, tx.key)
            && tx.loaded.value == Load(s.db, tx.key)
            && Consistent(config.codec, db') && SameElsewhere(s.db, db', {tx.key.document})
            && Durable(db', tx.key) == Durable(s.db, tx.key) + Base(seed)
            && Pending(db', tx.key) == {} && HasSnapshot(db', tx.key)
            && Upto(db', tx.key) == Load(s.db, tx.key).upto
            && db'.docs[tx.key.document].content == config.codec.text(Durable(db', tx.key))
            && db'.updates.Keys <= s.db.updates.Keys
  {
    var tx := s.txs[t];
    assert TxFits(s.db, s.retired, tx);
    var view := OwnView(s.db, tx);
    var seed := SeedFor(config.codec, tx);
    ClearSupersededEffect(config.codec, s.db, tx.key);
    SeededCompaction(s.db, tx.key, seed);
    ReconcileViewed(config, s.db, view, tx.key, seed);
  }

  /** A seed is added only where nothing is durable yet, so compaction never replaces anything by it. */
  lemma SeededCompaction(db: Db, key: DocKey, seed: Option<Ops>)
    requires seed.Some? ==> Compacted(db, key).None? && Pending(db, key) == {}
    ensures Compaction(Load(db, key), seed) == Durable(db, key) + Base(seed)
  {
  }

  lemma ReconcileViewed(config: Config, db: Db, view: Db, key: DocKey, seed: Option<Ops>)
    requires Consistent(config.codec, view) && Live(view, key)
    requires SameElsewhere(db, view, {key.document}) && view.updates.Keys <= db.updates.Keys
    ensures var db' := Reconciled(config, view, key, Load(view, key), seed);
            && Consistent(config.codec, db') && SameElsewhere(db, db', {key.document})
            && Durable(db', key) == Compaction(Load(view, key), seed)
            && Pending(db', key) == {} && HasSnapshot(db', key) && Upto(db', key) == Load(view, key).upto
            && db'.docs[key.document].content == config.codec.text(Durable(db', key))
            && db'.updates.Keys <= db.updates.Keys
  {
    ReconcileEffect(config, view, key, seed);
    SameElsewhereChains(db, view, Reconciled(config, view, key, Load(view, key), seed), {key.document});
  }

  lemma ClearRevisionEffect(codec: Codec, db: Db, key: DocKey)
    requires Consistent(codec, db)
    ensures var db' := ClearRevision(db, key);
            && Consistent(codec, db') && SameElsewhere(db, db', {key.document})
            && Pending(db', key) == {} && db'.updates.Keys <= db.updates.Keys
            && (forall other: DocKey :: SlotOf(other) != SlotOf(key) ==>
                  Durable(db', other) == Durable(db, other) && Pending(db', other) == Pending(db, other)
                  && Upto(db', other) == Upto(db, other))
  {
    var db' := ClearRevision(db, key);
    forall other: DocKey | SlotOf(other) != SlotOf(key)
      ensures Durable(db', other) == Durable(db, other) && Pending(db', other) == Pending(db, other)
              && Upto(db', other) == Upto(db, other)
    {
      assert Upto(db', other) == Upto(db, other) && Compacted(db', other) == Compacted(db, other);
      assert Pending(db', other) == Pending(db, other);
      OpsOfSame(db.updates, db'.updates, Pending(db, other));
    }
  }

  // ---- flushing a project ----

  /** Only current documents have a live key, and each has only one. */
  lemma LiveKeyUnique(db: Db, key: DocKey, other: DocKey)
    requires Live(db, key) && Live(db, other) && key.document == other.document
    ensures key == other
  {
  }

  lemma ReconciledOthers(config: Config, db: Db, key: DocKey, other: DocKey)
    requires Consistent(config.codec, db) && Live(db, key) && other != key
    ensures Pending(Reconciled(config, db, key, Load(db, key), None), other) <= Pending(db, other)
  {
    var db' := Reconciled(config, db, key, Load(db, key), None);
    ReconcileEffect(config, db, key, None);
    forall id | id in Pending(db', other)
      ensures id in Pending(db, other)
    {
      assert id in db.updates && db'.updates[id] == db.updates[id];
      assert other.epoch == db.content[other.project];
      assert SlotOf(other) != SlotOf(key);
    }
  }

  /** A live document keeps a snapshot it has; unless flushed, it gains none and keeps its text. */
  predicate KeepsUnflushed(db: Db, db': Db, live: DocKey, flushed: bool)
    requires Live(db, live)
  {
    && live.document in db'.docs
    && (HasSnapshot(db, live) || flushed ==> HasSnapshot(db', live))
    && (!flushed ==>
          HasSnapshot(db', live) == HasSnapshot(db, live)
          && db'.docs[live.document] == db.docs[live.document])
  }

  /** One flushed document: its rows are covered or dropped, and no live meaning changes. */
  lemma FlushOneEffect(config: Config, db: Db, key: DocKey)
    requires Consistent(config.codec, db)
    requires key.project in db.content && db.content[key.project] == key.epoch
    ensures var db' := FlushOne(config, db, key);
            && Consistent(config.codec, db') && SameElsewhere(db, db', {key.document})
            && db'.updates.Keys <= db.updates.Keys
            && Pending(db', key) == {}
            && (forall other: DocKey :: Pending(db', other) <= Pending(db, other))
            && (forall live: DocKey :: Live(db, live) ==>
                  Durable(db', live) == Durable(db, live) && KeepsUnflushed(db, db', live, live == key))
  {
    var db' := FlushOne(config, db, key);
    if !Matches(db, key) {
      ClearRevisionEffect(config.codec, db, key);
      forall other: DocKey
        ensures Pending(db', other) <= Pending(db, other)
      {
        if SlotOf(other) == SlotOf(key) {
          assert Pending(db', other) == {};
        }
      }
    } else {
      ReconcileEffect(config, db, key, None);
      SeededCompaction(db, key, None);
      forall other: DocKey
        ensures Pending(db', other) <= Pending(db, other)
      {
        if other != key {
          ReconciledOthers(config, db, key, other);
        }
      }
      forall live: DocKey | Live(db, live)
        ensures Durable(db', live) == Durable(db, live) && KeepsUnflushed(db, db', live, live == key)
      {
        if live.document == key.document {
          LiveKeyUnique(db, live, key);
        } else {
          SameElsewhereLoads(db, db', {key.document}, live);
        }
      }
    }
  }

  lemma SameElsewhereWidens(db: Db, db': Db, touched: set<nat>, wider: set<nat>)
    requires SameElsewhere(db, db', touched) && touched <= wider
    ensures SameElsewhere(db, db', wider)
  {
  }

  lemma {:induction false} FlushEffect(config: Config, db: Db, keys: seq<DocKey>, documents: set<nat>)
    requires Consistent(config.codec, db)
    requires forall key :: key in keys ==>
      key.document in documents && key.project in db.content && db.content[key.project] == key.epoch
    ensures var db' := Flushed(config, db, keys);
            && Consistent(config.codec, db') && SameElsewhere(db, db', documents)
            && db'.updates.Keys <= db.updates.Keys
            && (forall key :: key in keys ==> Pending(db', key) == {})
            && (forall other: DocKey :: Pending(db', other) <= Pending(db, other))
            && (forall live: DocKey :: Live(db, live) ==>
                  Durable(db', live) == Durable(db, live) && KeepsUnflushed(db, db', live, live in keys))
    decreases |keys|
  {
    if keys != [] {
      var next := FlushOne(config, db, keys[0]);
      FlushOneEffect(config, db, keys[0]);
      SameElsewhereWidens(db, next, {keys[0].document}, documents);
      FlushEffect(config, next, keys[1..], documents);
      SameElsewhereChains(db, next, Flushed(config, db, keys), documents);
    }
  }
}
