/** The tables of durable collaboration and the statements that change them
  (backend/src/collaboration/persistence.rs).

  Projects carry a content epoch and an access epoch, documents a collaboration revision.
  Every update row and every snapshot is addressed by the document revision and content
  epoch it was written for. */
module CollabTables {
  import opened Wrappers
  import opened YjsState

  /** A document at one collaboration revision, in one content epoch of its project. */
  datatype DocKey = DocKey(project: nat, document: nat, revision: nat, epoch: nat)

  datatype Kind = Update | Sync

  datatype Contributor = User(id: nat) | Guest(name: string)

  datatype Row = Row(key: DocKey, kind: Kind, ops: Ops, contributor: Option<Contributor>)

  /** The primary key of the snapshot table; the epoch is an ordinary column there. */
  datatype Slot = Slot(project: nat, document: nat, revision: nat)

  datatype Snapshot = Snapshot(epoch: nat, upto: nat, state: Ops)

  datatype Doc = Doc(project: nat, revision: nat, content: string)

  /** All tables together with `nextId`, the sequence that numbers update rows. */
  datatype Db = Db(
    content: map<nat, nat>,
    access: map<nat, nat>,
    docs: map<nat, Doc>,
    updates: map<nat, Row>,
    snapshots: map<Slot, Snapshot>,
    nextId: nat)

  datatype Config = Config(codec: Codec, retention: nat)

  function SlotOf(key: DocKey): Slot {
    Slot(key.project, key.document, key.revision)
  }

  predicate HasSnapshot(db: Db, key: DocKey) {
    SlotOf(key) in db.snapshots && db.snapshots[SlotOf(key)].epoch == key.epoch
  }

  function Upto(db: Db, key: DocKey): nat {
    if HasSnapshot(db, key) then db.snapshots[SlotOf(key)].upto else 0
  }

  function Compacted(db: Db, key: DocKey): Option<Ops> {
    if HasSnapshot(db, key) then Some(db.snapshots[SlotOf(key)].state) else None
  }

  /** The rows of `key` that its snapshot does not cover. */
  function Pending(db: Db, key: DocKey): set<nat> {
    set id | id in db.updates && db.updates[id].key == key && id > Upto(db, key)
  }

  /** The uncovered rows of the whole table. */
  function Uncovered(db: Db): set<nat> {
    set id | id in db.updates && id > Upto(db, db.updates[id].key)
  }

  function OpsOf(updates: map<nat, Row>, ids: set<nat>): Ops {
    set id, op | id in ids && id in updates && op in updates[id].ops :: op
  }

  /** What the database durably knows of a document: its snapshot joined with the later rows. */
  function Durable(db: Db, key: DocKey): Ops {
    Base(Compacted(db, key)) + OpsOf(db.updates, Pending(db, key))
  }

  /** The project's epoch and the document's revision are the ones `key` names. */
  predicate Live(db: Db, key: DocKey) {
    && key.project in db.content && db.content[key.project] == key.epoch
    && Matches(db, key)
  }

  predicate Matches(db: Db, key: DocKey) {
    && key.document in db.docs
    && db.docs[key.document].project == key.project
    && db.docs[key.document].revision == key.revision
  }

  /** The largest of `ids` and `floor`. */
  ghost function Last(ids: set<nat>, floor: nat): (last: nat)
    ensures last >= floor && forall id :: id in ids ==> id <= last
    ensures last == floor || last in ids
  {
    if ids == {} then floor
    else
      var id :| id in ids;
      var rest := Last(ids - {id}, floor);
      assert forall other :: other in ids ==> other == id || other in ids - {id};
      if rest < id then id else rest
  }

  lemma LastIsUnique(ids: set<nat>, floor: nat, last: nat)
    requires last >= floor && forall id :: id in ids ==> id <= last
    requires last == floor || last in ids
    ensures last == Last(ids, floor)
  {
  }

  /** The part of a bootstrap state that compaction depends on. */
  datatype Loaded = Loaded(upto: nat, snapshot: Option<Ops>, rows: Ops, hasRows: bool)

  ghost function Load(db: Db, key: DocKey): Loaded {
    var ids := Pending(db, key);
    Loaded(Last(ids, Upto(db, key)), Compacted(db, key), OpsOf(db.updates, ids), ids != {})
  }

  // ---- statements ----

  function InsertRow(db: Db, id: nat, row: Row): Db {
    db.(updates := db.updates[id := row])
  }

  /** A snapshot is replaced only by one of a later epoch, or of the same epoch that covers as much. */
  function UpsertSnapshot(db: Db, key: DocKey, upto: nat, state: Ops): Db {
    var slot := SlotOf(key);
    if slot in db.snapshots
       && !(db.snapshots[slot].epoch < key.epoch
            || (db.snapshots[slot].epoch == key.epoch && db.snapshots[slot].upto <= upto))
    then db
    else db.(snapshots := db.snapshots[slot := Snapshot(key.epoch, upto, state)])
  }

  function PruneUpdates(db: Db, key: DocKey, latest: nat, retention: nat): Db {
    var cutoff: int := latest - retention;
    if cutoff <= 0 || !HasSnapshot(db, key) || db.snapshots[SlotOf(key)].upto < cutoff then db
    else
      db.(updates := map id | id in db.updates
                              && !(db.updates[id].key == key && id < cutoff) :: db.updates[id])
  }

  function ClearProject(db: Db, project: nat): Db {
    db.(updates := map id | id in db.updates && db.updates[id].key.project != project :: db.updates[id],
        snapshots := map slot | slot in db.snapshots && slot.project != project :: db.snapshots[slot])
  }

  function ClearSupersededRevisions(db: Db, key: DocKey): Db {
    db.(updates := map id | id in db.updates
                            && !(db.updates[id].key.project == key.project
                                 && db.updates[id].key.document == key.document
                                 && db.updates[id].key.revision != key.revision) :: db.updates[id],
        snapshots := map slot | slot in db.snapshots
                                && !(slot.project == key.project && slot.document == key.document
                                     && slot.revision != key.revision) :: db.snapshots[slot])
  }

  function ClearRevision(db: Db, key: DocKey): Db {
    db.(updates := map id | id in db.updates
                            && !(SlotOf(db.updates[id].key) == SlotOf(key)) :: db.updates[id],
        snapshots := map slot | slot in db.snapshots && slot != SlotOf(key) :: db.snapshots[slot])
  }

  /** Writes the rendered text of a document, if it is there; its revision does not change. */
  function Project(db: Db, document: nat, text: string): Db {
    if document !in db.docs then db
    else
      db.(docs := db.docs[document := db.docs[document].(content := text)])
  }

  /** What compaction merges: the loaded snapshot, or else the seed, and the loaded rows. */
  function Compaction(loaded: Loaded, seed: Option<Ops>): Ops {
    Base(if loaded.snapshot.Some? then loaded.snapshot else seed) + loaded.rows
  }

  /** Merge, project the text, store the snapshot and prune, all in one transaction. */
  function Reconciled(config: Config, db: Db, key: DocKey, loaded: Loaded, seed: Option<Ops>): Db {
    var merged := Compaction(loaded, seed);
    var projected := Project(db, key.document, config.codec.text(merged));
    var compacted := UpsertSnapshot(projected, key, loaded.upto, merged);
    PruneUpdates(compacted, key, loaded.upto, config.retention)
  }

  // ---- consistency ----

  predicate Fits(db: Db, project: nat, document: nat, revision: nat, epoch: nat) {
    && project in db.content && db.content[project] == epoch
    && document in db.docs && db.docs[document].project == project
    && revision <= db.docs[document].revision
  }

  /** Every row carries its project's current content epoch and names a revision its document had. */
  ghost predicate RowsFit(db: Db) {
    forall id :: id in db.updates ==>
      0 < id < db.nextId
      && var key := db.updates[id].key; Fits(db, key.project, key.document, key.revision, key.epoch)
  }

  ghost predicate SnapshotsFit(db: Db) {
    forall slot :: slot in db.snapshots ==>
      db.snapshots[slot].upto < db.nextId
      && Fits(db, slot.project, slot.document, slot.revision, db.snapshots[slot].epoch)
  }

  /** The text of a document whose current revision has a snapshot is the text of that snapshot. */
  ghost predicate TextsFit(codec: Codec, db: Db) {
    forall slot | slot in db.snapshots && slot.document in db.docs
                  && slot.revision == db.docs[slot.document].revision ::
      db.docs[slot.document].content == codec.text(db.snapshots[slot].state)
  }

  ghost predicate Consistent(codec: Codec, db: Db) {
    0 < db.nextId && RowsFit(db) && SnapshotsFit(db) && TextsFit(codec, db)
  }

  // ---- lemmas ----

  /** Pruning removes only rows that the snapshot covers. */
  lemma PruneKeepsDurable(db: Db, key: DocKey, latest: nat, retention: nat, other: DocKey)
    ensures var pruned := PruneUpdates(db, key, latest, retention);
            && Pending(pruned, other) == Pending(db, other)
            && Durable(pruned, other) == Durable(db, other)
            && Load(pruned, other) == Load(db, other)
            && forall id :: id in db.updates && id !in pruned.updates ==>
                 db.updates[id].key == key && id <= Upto(db, key)
  {
    var pruned := PruneUpdates(db, key, latest, retention);
    forall id
      ensures id in Pending(pruned, other) <==> id in Pending(db, other)
    {
    }
    OpsOfSame(db.updates, pruned.updates, Pending(db, other));
  }

  lemma OpsOfSame(updates: map<nat, Row>, updates': map<nat, Row>, ids: set<nat>)
    requires forall id :: id in ids ==> id in updates && id in updates' && updates[id].ops == updates'[id].ops
    ensures OpsOf(updates, ids) == OpsOf(updates', ids)
  {
  }

  /** Documents outside `touched` keep their text, rows and snapshots. */
  ghost predicate SameElsewhere(db: Db, db': Db, touched: set<nat>) {
    && db'.content == db.content && db'.access == db.access && db'.nextId == db.nextId
    && db'.docs.Keys == db.docs.Keys
    && (forall d :: d in db.docs ==>
          db'.docs[d].project == db.docs[d].project && db'.docs[d].revision == db.docs[d].revision)
    && (forall d :: d in db.docs && d !in touched ==> db'.docs[d] == db.docs[d])
    && SameRowsElsewhere(db, db', touched)
  }

  ghost predicate SameRowsElsewhere(db: Db, db': Db, touched: set<nat>) {
    && (forall id :: id in db.updates && db.updates[id].key.document !in touched ==>
          id in db'.updates && db'.updates[id] == db.updates[id])
    && (forall id :: id in db'.updates && db'.updates[id].key.document !in touched ==>
          id in db.updates && db'.updates[id] == db.updates[id])
    && (forall slot: Slot :: slot.document !in touched ==>
          (slot in db.snapshots <==> slot in db'.snapshots))
    && (forall slot: Slot :: slot.document !in touched && slot in db.snapshots ==>
          db'.snapshots[slot] == db.snapshots[slot])
  }

  lemma SameElsewhereLoads(db: Db, db': Db, touched: set<nat>, key: DocKey)
    requires SameRowsElsewhere(db, db', touched) && key.document !in touched
    ensures Load(db', key) == Load(db, key)
    ensures Durable(db', key) == Durable(db, key)
    ensures Upto(db', key) == Upto(db, key)
    ensures Pending(db', key) == Pending(db, key)
  {
    assert Upto(db', key) == Upto(db, key) && Compacted(db', key) == Compacted(db, key);
    assert Pending(db', key) == Pending(db, key);
    OpsOfSame(db.updates, db'.updates, Pending(db, key));
  }

  lemma PruneFits(codec: Codec, db: Db, key: DocKey, latest: nat, retention: nat)
    ensures var pruned := PruneUpdates(db, key, latest, retention);
            && (Consistent(codec, db) ==> Consistent(codec, pruned))
            && SameElsewhere(db, pruned, {key.document})
            && pruned.updates.Keys <= db.updates.Keys
  {
  }

  /** Storing a merge that covers everything loaded replaces whatever snapshot was there. */
  lemma CompactFits(codec: Codec, db: Db, key: DocKey, upto: nat, merged: Ops)
    requires Consistent(codec, db) && Live(db, key)
    requires Upto(db, key) <= upto < db.nextId
    ensures var db' := UpsertSnapshot(Project(db, key.document, codec.text(merged)), key, upto, merged);
            && db'.snapshots == db.snapshots[SlotOf(key) := Snapshot(key.epoch, upto, merged)]
            && db'.updates == db.updates
            && Consistent(codec, db')
            && SameElsewhere(db, db', {key.document})
  {
  }

  lemma SameElsewhereChains(db: Db, db': Db, db'': Db, touched: set<nat>)
    requires SameElsewhere(db, db', touched) && SameElsewhere(db', db'', touched)
    ensures SameElsewhere(db, db'', touched)
  {
  }

  /** The stored merge covers every row of the document, so nothing stays pending beside it. */
  lemma CompactCovers(db: Db, db': Db, key: DocKey, merged: Ops)
    requires db'.updates == db.updates
    requires db'.snapshots == db.snapshots[SlotOf(key) := Snapshot(key.epoch, Load(db, key).upto, merged)]
    ensures HasSnapshot(db', key) && Upto(db', key) == Load(db, key).upto
    ensures Pending(db', key) == {} && Durable(db', key) == merged
  {
    forall id | id in db.updates && db.updates[id].key == key
      ensures id <= Load(db, key).upto
    {
      assert id in Pending(db, key) || id <= Upto(db, key);
    }
    assert Pending(db', key) == {};
    assert OpsOf(db'.updates, {}) == {};
  }

  /** Reconciling a current document keeps what is durable, covers every row and fixes its text. */
  lemma ReconcileEffect(config: Config, db: Db, key: DocKey, seed: Option<Ops>)
    requires Consistent(config.codec, db) && Live(db, key)
    ensures var loaded := Load(db, key);
            var db' := Reconciled(config, db, key, loaded, seed);
            && Durable(db', key) == Compaction(loaded, seed)
            && Pending(db', key) == {}
            && HasSnapshot(db', key) && Upto(db', key) == loaded.upto
            && db'.docs[key.document].content == config.codec.text(Durable(db', key))
            && SameElsewhere(db, db', {key.document})
            && Consistent(config.codec, db')
            && db'.updates.Keys <= db.updates.Keys
  {
    var loaded := Load(db, key);
    var merged := Compaction(loaded, seed);
    LoadedBelowNext(db, key);
    CompactFits(config.codec, db, key, loaded.upto, merged);
    var compacted := UpsertSnapshot(Project(db, key.document, config.codec.text(merged)), key, loaded.upto, merged);
    CompactCovers(db, compacted, key, merged);
    PruneKeepsDurable(compacted, key, loaded.upto, config.retention, key);
    PruneFits(config.codec, compacted, key, loaded.upto, config.retention);
    SameElsewhereChains(db, compacted, PruneUpdates(compacted, key, loaded.upto, config.retention), {key.document});
  }

  lemma LoadedBelowNext(db: Db, key: DocKey)
    requires 0 < db.nextId && RowsFit(db) && SnapshotsFit(db)
    ensures Upto(db, key) <= Load(db, key).upto < db.nextId
  {
  }
}
