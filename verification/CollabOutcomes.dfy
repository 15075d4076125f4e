/** What the transactions of the collaboration store do to their rows, written out column by column,
  and what is read back after them (backend/src/collaboration/persistence.rs, updates.rs). */
module CollabOutcomes {
  import opened Wrappers
  import opened YjsState
  import opened CollabTables

  // ---- which rows matter ----

  /** The document's snapshot of the same epoch reaches up to `id`. */
  predicate Covers(db: Db, key: DocKey, id: nat) {
    var slot := Slot(key.project, key.document, key.revision);
    slot in db.snapshots && db.snapshots[slot].epoch == key.epoch && id <= db.snapshots[slot].upto
  }

  /** Later rows of the document, which its snapshot does not reach. */
  predicate Later(db: Db, key: DocKey, id: nat) {
    id in db.updates && db.updates[id].key == key && !Covers(db, key, id)
  }

  /** Everything before the last `retention` identifiers, once the snapshot reaches that far. */
  predicate Prunes(db: Db, key: DocKey, id: nat, latest: nat, retention: nat) {
    && id in db.updates && db.updates[id].key == key && id < latest - retention
    && Covers(db, key, latest - retention)
  }

  lemma PendingIsLater(db: Db, key: DocKey, id: nat)
    ensures RowsFit(db) ==> (id in Pending(db, key) <==> Later(db, key, id))
  {
  }

  lemma PrunedRows(db: Db, key: DocKey, latest: nat, retention: nat)
    ensures var db' := PruneUpdates(db, key, latest, retention);
            && db' == db.(updates := db'.updates)
            && (forall id :: id in db'.updates <==> id in db.updates && !Prunes(db, key, id, latest, retention))
            && (forall id :: id in db'.updates ==> db'.updates[id] == db.updates[id])
  {
  }

  // ---- admission ----

  /** An accepted plain update: one more row, with everything it was sent with, under the next
    identifier; rows that are old enough and covered go, and nothing else changes. */
  ghost predicate PlainAccepted(retention: nat, db: Db, row: Row, db': Db) {
    && db'.nextId == db.nextId + 1
    && db.nextId in db'.updates && db'.updates[db.nextId] == row
    && (forall id :: id != db.nextId ==>
          (id in db'.updates <==> id in db.updates && !Prunes(db, row.key, id, db.nextId, retention)))
    && (forall id :: id != db.nextId && id in db'.updates ==> db'.updates[id] == db.updates[id])
    && db'.snapshots == db.snapshots && db'.docs == db.docs && db'.content == db.content && db'.access == db.access
  }

  /** The document's snapshot, its later rows and `extra`, together. */
  ghost predicate Together(db: Db, key: DocKey, extra: Ops, merged: Ops) {
    var slot := Slot(key.project, key.document, key.revision);
    forall op :: op in merged <==>
      || op in extra
      || (slot in db.snapshots && db.snapshots[slot].epoch == key.epoch && op in db.snapshots[slot].state)
      || exists id :: Later(db, key, id) && op in db.updates[id].ops
  }

  /** A compaction: the merged state is the snapshot up to `upto`, its text is the document's, and
    rows older than the retention go. */
  ghost predicate Compacts(config: Config, db: Db, key: DocKey, merged: Ops, upto: nat, db': Db) {
    && key.document in db.docs
    && db'.snapshots == db.snapshots[Slot(key.project, key.document, key.revision) := Snapshot(key.epoch, upto, merged)]
    && db'.docs == db.docs[key.document := db.docs[key.document].(content := config.codec.text(merged))]
    && (forall id :: id in db'.updates <==>
          id in db.updates && !(db.updates[id].key == key && id < upto - config.retention))
    && (forall id :: id in db'.updates ==> db'.updates[id] == db.updates[id])
    && db'.content == db.content && db'.access == db.access && db'.nextId == db.nextId
  }

  /** An accepted sync: its row is inserted and the document compacted up to it. */
  ghost predicate SyncAccepted(config: Config, db: Db, row: Row, db': Db) {
    var inserted := db.(nextId := db.nextId + 1, updates := db.updates[db.nextId := row]);
    exists merged :: Together(db, row.key, row.ops, merged) && Compacts(config, inserted, row.key, merged, db.nextId, db')
  }

  lemma LoadedTogether(db: Db, key: DocKey, seed: Option<Ops>)
    requires RowsFit(db)
    ensures Together(db, key, if HasSnapshot(db, key) then {} else Base(seed), Compaction(Load(db, key), seed))
  {
    var slot := Slot(key.project, key.document, key.revision);
    var extra := if HasSnapshot(db, key) then {} else Base(seed);
    forall op
      ensures op in Compaction(Load(db, key), seed) <==>
        || op in extra
        || (slot in db.snapshots && db.snapshots[slot].epoch == key.epoch && op in db.snapshots[slot].state)
        || exists id :: Later(db, key, id) && op in db.updates[id].ops
    {
      LaterOps(db, key, op);
    }
  }

  lemma LaterOps(db: Db, key: DocKey, op: Op)
    requires RowsFit(db)
    ensures op in OpsOf(db.updates, Pending(db, key)) <==> exists id :: Later(db, key, id) && op in db.updates[id].ops
  {
    if op in OpsOf(db.updates, Pending(db, key)) {
      var id :| id in Pending(db, key) && id in db.updates && op in db.updates[id].ops;
      PendingIsLater(db, key, id);
    }
    if id :| Later(db, key, id) && op in db.updates[id].ops {
      PendingIsLater(db, key, id);
    }
  }

  /** Reconciling a current document with what is stored of it compacts it. */
  lemma ReconciledOutcome(config: Config, db: Db, key: DocKey, seed: Option<Ops>)
    requires Consistent(config.codec, db) && Live(db, key)
    ensures Compacts(config, db, key, Compaction(Load(db, key), seed), Load(db, key).upto,
                     Reconciled(config, db, key, Load(db, key), seed))
  {
    var merged := Compaction(Load(db, key), seed);
    var compacted := UpsertSnapshot(Project(db, key.document, config.codec.text(merged)), key, Load(db, key).upto, merged);
    PrunedRows(compacted, key, Load(db, key).upto, config.retention);
  }

  lemma AfterInsertion(db: Db, row: Row)
    requires RowsFit(db) && SnapshotsBelow(db) && 0 < db.nextId
    ensures var inserted := db.(nextId := db.nextId + 1, updates := db.updates[db.nextId := row]);
            && (forall id :: Later(inserted, row.key, id) <==> Later(db, row.key, id) || id == db.nextId)
            && Load(inserted, row.key).upto == db.nextId
            && Compaction(Load(inserted, row.key), None) == Compaction(Load(db, row.key), None) + row.ops
  {
    var inserted := db.(nextId := db.nextId + 1, updates := db.updates[db.nextId := row]);
    assert Upto(inserted, row.key) == Upto(db, row.key) < db.nextId;
    assert Pending(inserted, row.key) == Pending(db, row.key) + {db.nextId};
    LastIsUnique(Pending(inserted, row.key), Upto(inserted, row.key), db.nextId);
    OneMoreRow(db, row);
  }

  lemma OneMoreRow(db: Db, row: Row)
    requires RowsFit(db)
    ensures OpsOf(db.updates[db.nextId := row], Pending(db, row.key) + {db.nextId})
            == OpsOf(db.updates, Pending(db, row.key)) + row.ops
  {
    var updates', ids := db.updates[db.nextId := row], Pending(db, row.key);
    forall op
      ensures op in OpsOf(updates', ids + {db.nextId}) <==> op in OpsOf(db.updates, ids) + row.ops
    {
      if op in OpsOf(updates', ids + {db.nextId}) {
        var id :| id in ids + {db.nextId} && id in updates' && op in updates'[id].ops;
        assert id in ids ==> db.updates[id] == updates'[id];
      }
      if op in OpsOf(db.updates, ids) {
        var id :| id in ids && id in db.updates && op in db.updates[id].ops;
        assert id in ids + {db.nextId} && updates'[id] == db.updates[id];
      }
      if op in row.ops {
        assert db.nextId in ids + {db.nextId} && op in updates'[db.nextId].ops;
      }
    }
  }

  /** No snapshot reaches an identifier that is not drawn yet. */
  ghost predicate SnapshotsBelow(db: Db) {
    forall slot :: slot in db.snapshots ==> db.snapshots[slot].upto < db.nextId
  }

  /** No row and no snapshot of the document belongs to another of its revisions. */
  predicate OnlyRevision(db: Db, key: DocKey) {
    && (forall id :: id in db.updates ==>
          var k := db.updates[id].key;
          k.project == key.project && k.document == key.document ==> k.revision == key.revision)
    && (forall slot :: slot in db.snapshots ==>
          slot.project == key.project && slot.document == key.document ==> slot.revision == key.revision)
  }

  lemma StillOnlyRevision(config: Config, db: Db, key: DocKey, loaded: Loaded, seed: Option<Ops>)
    requires OnlyRevision(db, key)
    ensures OnlyRevision(Reconciled(config, db, key, loaded, seed), key)
  {
  }

  // ---- reading back ----

  /** What is read of a document: its snapshot, and each later row in the order of identifiers with
    its kind and operations, and the authors of those rows, each once. */
  ghost predicate ReadsBack(db: Db, key: DocKey, snapshot: Option<Ops>, ids: seq<nat>, entries: seq<(Kind, Ops)>,
                            contributors: seq<Contributor>)
  {
    var slot := Slot(key.project, key.document, key.revision);
    && snapshot == (if slot in db.snapshots && db.snapshots[slot].epoch == key.epoch
                    then Some(db.snapshots[slot].state) else None)
    && (forall i, j :: 0 <= i < j < |ids| ==> ids[i] < ids[j])
    && (forall id :: id in ids <==> Later(db, key, id))
    && |entries| == |ids|
    && (forall i :: 0 <= i < |ids| ==>
          ids[i] in db.updates && entries[i] == (db.updates[ids[i]].kind, db.updates[ids[i]].ops))
    && (forall i, j :: 0 <= i < j < |contributors| ==> contributors[i] != contributors[j])
    && (forall c :: c in contributors <==>
          exists i :: 0 <= i < |ids| && ids[i] in db.updates && db.updates[ids[i]].contributor == Some(c))
  }

  /** The tables between plain updates of one document that are all accepted. */
  ghost predicate Accepts(retention: nat, states: seq<Db>, rows: seq<Row>, key: DocKey) {
    && |states| == |rows| + 1 && RowsFit(states[0]) && SnapshotsBelow(states[0])
    && forall i :: 0 <= i < |rows| ==> AcceptsAt(retention, states, rows, key, i)
  }

  ghost predicate AcceptsAt(retention: nat, states: seq<Db>, rows: seq<Row>, key: DocKey, i: nat)
    requires i < |rows| && |states| == |rows| + 1
  {
    rows[i].key == key && PlainAccepted(retention, states[i], rows[i], states[i + 1])
  }

  /** After `n` of them: the rows that were later still are, and the new ones are as they were sent. */
  ghost predicate Grown(db: Db, db': Db, rows: seq<Row>, key: DocKey, n: nat)
    requires n <= |rows|
  {
    && db'.nextId == db.nextId + n && db'.snapshots == db.snapshots
    && (forall id: nat :: Later(db', key, id) <==> Later(db, key, id) || db.nextId <= id < db.nextId + n)
    && (forall id: nat :: Later(db, key, id) ==> db'.updates[id] == db.updates[id])
    && (forall id: nat :: db.nextId <= id < db.nextId + n ==> id in db'.updates && db'.updates[id] == rows[id - db.nextId])
  }

  /** Identifiers not drawn yet are neither stored nor covered. */
  ghost predicate Fresh(db: Db, key: DocKey) {
    forall id :: id >= db.nextId ==> id !in db.updates && !Covers(db, key, id)
  }

  lemma GrownNext(retention: nat, db: Db, before: Db, after: Db, rows: seq<Row>, key: DocKey, n: nat)
    requires n < |rows| && rows[n].key == key && PlainAccepted(retention, before, rows[n], after)
    requires Grown(db, before, rows, key, n) && Fresh(before, key)
    ensures Grown(db, after, rows, key, n + 1) && Fresh(after, key)
  {
    PlainStep(retention, before, rows[n], after);
    forall id: nat | db.nextId <= id < db.nextId + n + 1
      ensures id in after.updates && after.updates[id] == rows[id - db.nextId]
    {
      if id < db.nextId + n {
        assert Later(before, key, id);
      }
    }
  }

  /** One more row is later, as it was sent, and the others stay. */
  lemma PlainStep(retention: nat, db: Db, row: Row, db': Db)
    requires PlainAccepted(retention, db, row, db') && !Covers(db, row.key, db.nextId) && db.nextId !in db.updates
    ensures forall id: nat :: Later(db', row.key, id) <==> Later(db, row.key, id) || id == db.nextId
    ensures forall id: nat :: Later(db, row.key, id) ==> db'.updates[id] == db.updates[id]
  {
  }

  lemma NotGrown(db: Db, rows: seq<Row>, key: DocKey)
    requires RowsFit(db) && SnapshotsBelow(db)
    ensures Grown(db, db, rows, key, 0) && Fresh(db, key)
  {
  }

  lemma {:induction false} AllGrown(retention: nat, states: seq<Db>, rows: seq<Row>, key: DocKey, n: nat)
    requires Accepts(retention, states, rows, key) && n <= |rows|
    ensures Grown(states[0], states[n], rows, key, n) && Fresh(states[n], key)
  {
    if n == 0 {
      NotGrown(states[0], rows, key);
    } else {
      AllGrown(retention, states, rows, key, n - 1);
      assert AcceptsAt(retention, states, rows, key, n - 1);
      GrownNext(retention, states[0], states[n - 1], states[n], rows, key, n - 1);
    }
  }

  lemma HeadIsIn(ids: seq<nat>)
    ensures ids == [] || ids[0] in ids
  {
  }

  lemma LastIsLargest(a: seq<nat>, b: seq<nat>)
    requires a != [] && b != [] && forall i, j :: 0 <= i < j < |a| ==> a[i] < a[j]
    requires forall i, j :: 0 <= i < j < |b| ==> b[i] < b[j]
    requires forall id :: id in a <==> id in b
    ensures a[|a| - 1] == b[|b| - 1]
  {
    assert a[|a| - 1] in b && b[|b| - 1] in a;
    var i :| 0 <= i < |a| && a[i] == b[|b| - 1];
    var j :| 0 <= j < |b| && b[j] == a[|a| - 1];
  }

  /** Without their common largest element the sequences still have the same elements. */
  lemma SameWithoutLast(a: seq<nat>, b: seq<nat>, c: seq<nat>, d: seq<nat>, last: nat)
    requires c == a + [last] && d == b + [last] && last !in a && last !in b
    requires forall id :: id in c <==> id in d
    ensures forall id :: id in a <==> id in b
  {
    forall id
      ensures id in a ==> id in b
      ensures id in b ==> id in a
    {
      assert id in c <==> id in a || id == last;
      assert id in d <==> id in b || id == last;
    }
  }

  lemma LastIsElsewhere(a: seq<nat>)
    requires a != [] && forall i, j :: 0 <= i < j < |a| ==> a[i] < a[j]
    ensures a == a[..|a| - 1] + [a[|a| - 1]] && a[|a| - 1] !in a[..|a| - 1]
  {
  }

  lemma {:induction false} AscendingIsUnique(a: seq<nat>, b: seq<nat>)
    requires forall i, j :: 0 <= i < j < |a| ==> a[i] < a[j]
    requires forall i, j :: 0 <= i < j < |b| ==> b[i] < b[j]
    requires forall id :: id in a <==> id in b
    ensures a == b
    decreases |a|
  {
    HeadIsIn(a);
    HeadIsIn(b);
    if a != [] && b != [] {
      LastIsLargest(a, b);
      var a', b', last := a[..|a| - 1], b[..|b| - 1], a[|a| - 1];
      LastIsElsewhere(a);
      LastIsElsewhere(b);
      SameWithoutLast(a', b', a, b, last);
      AscendingIsUnique(a', b');
    }
  }

  /** The identifiers drawn one after another. */
  function Range(first: nat, n: nat): (ids: seq<nat>)
    ensures |ids| == n && forall i :: 0 <= i < n ==> ids[i] == first + i
  {
    seq(n, i requires 0 <= i < n => first + i)
  }

  /** Reading back after any number of accepted plain updates: what was read before, and then every
    update with its kind and operations in the order of acceptance; and their authors as well. */
  lemma ReadsBackAll(retention: nat, states: seq<Db>, rows: seq<Row>, key: DocKey,
                     snapshot: Option<Ops>, ids: seq<nat>, entries: seq<(Kind, Ops)>, contributors: seq<Contributor>,
                     snapshot': Option<Ops>, ids': seq<nat>, entries': seq<(Kind, Ops)>, contributors': seq<Contributor>)
    requires Accepts(retention, states, rows, key)
    requires ReadsBack(states[0], key, snapshot, ids, entries, contributors)
    requires ReadsBack(states[|rows|], key, snapshot', ids', entries', contributors')
    ensures snapshot' == snapshot && |entries'| == |entries| + |rows|
    ensures forall i :: 0 <= i < |entries| ==> entries'[i] == entries[i]
    ensures forall i :: 0 <= i < |rows| ==> entries'[|entries| + i] == (rows[i].kind, rows[i].ops)
    ensures forall c :: c in contributors' <==> c in contributors || exists i :: 0 <= i < |rows| && rows[i].contributor == Some(c)
  {
    var db, db' := states[0], states[|rows|];
    AllGrown(retention, states, rows, key, |rows|);
    ReadLonger(db, db', key, ids, ids', |rows|);
    forall i | 0 <= i < |ids|
      ensures entries'[i] == entries[i] && ids[i] in db'.updates && db'.updates[ids[i]] == db.updates[ids[i]]
    {
      assert ids'[i] == ids[i] && ids[i] in ids;
      assert Later(db, key, ids[i]);
    }
    forall i | 0 <= i < |rows|
      ensures entries'[|entries| + i] == (rows[i].kind, rows[i].ops)
    {
      assert ids'[|ids| + i] == db.nextId + i;
    }
    AuthorsReadBack(states, rows, ids, ids', contributors, contributors');
  }

  lemma ReadLonger(db: Db, db': Db, key: DocKey, ids: seq<nat>, ids': seq<nat>, n: nat)
    requires RowsFit(db) && forall i, j :: 0 <= i < j < |ids| ==> ids[i] < ids[j]
    requires forall i, j :: 0 <= i < j < |ids'| ==> ids'[i] < ids'[j]
    requires forall id :: id in ids <==> Later(db, key, id)
    requires forall id :: id in ids' <==> Later(db', key, id)
    requires forall id: nat :: Later(db', key, id) <==> Later(db, key, id) || db.nextId <= id < db.nextId + n
    ensures ids' == ids + Range(db.nextId, n)
  {
    LongerList(db, key, ids, n);
    var all := ids + Range(db.nextId, n);
    forall id: nat
      ensures id in ids' <==> id in all
    {
    }
    AscendingIsUnique(ids', all);
  }

  lemma LongerList(db: Db, key: DocKey, ids: seq<nat>, n: nat)
    requires RowsFit(db) && forall i, j :: 0 <= i < j < |ids| ==> ids[i] < ids[j]
    requires forall id :: id in ids <==> Later(db, key, id)
    ensures var all := ids + Range(db.nextId, n);
            && (forall i, j :: 0 <= i < j < |all| ==> all[i] < all[j])
            && (forall id: nat :: id in all <==> Later(db, key, id) || db.nextId <= id < db.nextId + n)
  {
    var range := Range(db.nextId, n);
    var all := ids + range;
    forall id | id in ids
      ensures id < db.nextId
    {
      assert Later(db, key, id);
    }
    forall i | 0 <= i < |ids|
      ensures ids[i] < db.nextId
    {
      assert ids[i] in ids;
    }
    forall id | db.nextId <= id < db.nextId + n
      ensures id in all
    {
      assert range[id - db.nextId] == id;
      assert all[|ids| + (id - db.nextId)] == id;
    }
    assert forall id :: id in all <==> id in ids || id in range;
  }

  lemma AuthorsReadBack(states: seq<Db>, rows: seq<Row>, ids: seq<nat>, ids': seq<nat>,
                        contributors: seq<Contributor>, contributors': seq<Contributor>)
    requires |states| == |rows| + 1
    requires var db, db' := states[0], states[|rows|];
             && ids' == ids + Range(db.nextId, |rows|)
             && (forall i :: 0 <= i < |ids| ==> ids[i] in db.updates && ids[i] in db'.updates && db'.updates[ids[i]] == db.updates[ids[i]])
             && (forall id: nat :: db.nextId <= id < db.nextId + |rows| ==>
                   id in db'.updates && db'.updates[id] == rows[id - db.nextId])
             && (forall c :: c in contributors <==> exists i :: 0 <= i < |ids| && ids[i] in db.updates && db.updates[ids[i]].contributor == Some(c))
             && (forall c :: c in contributors' <==>
                   exists i :: 0 <= i < |ids'| && ids'[i] in db'.updates && db'.updates[ids'[i]].contributor == Some(c))
    ensures forall c :: c in contributors' <==> c in contributors || exists i :: 0 <= i < |rows| && rows[i].contributor == Some(c)
  {
    var db, db' := states[0], states[|rows|];
    forall c
      ensures c in contributors' <==> c in contributors || exists i :: 0 <= i < |rows| && rows[i].contributor == Some(c)
    {
      if c in contributors' {
        var i :| 0 <= i < |ids'| && ids'[i] in db'.updates && db'.updates[ids'[i]].contributor == Some(c);
        if i >= |ids| {
          assert rows[i - |ids|].contributor == Some(c);
        }
      }
      if c in contributors {
        var i :| 0 <= i < |ids| && ids[i] in db.updates && db.updates[ids[i]].contributor == Some(c);
        assert ids'[i] == ids[i];
      }
      if i :| 0 <= i < |rows| && rows[i].contributor == Some(c) {
        assert ids'[|ids| + i] == db.nextId + i;
      }
    }
  }
}
