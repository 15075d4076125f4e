/** The durable collaboration store as it runs: one object whose tables the transactions
  change in place (backend/src/collaboration/persistence.rs, updates.rs, projection.rs and
  bootstrap.rs). A method is a whole transaction, taken while no other one runs; what
  happens when they overlap is the subject of the interleaving model. */
module CollabStore {
  import opened Wrappers
  import opened YjsState
  import opened CollabTables
  import opened CollabSystem
  import opened CollabCommits
  import opened CollabSteps
  import opened CollabBarrier
  import opened CollabFlush
  import opened CollabOutcomes

  datatype BootstrapState = BootstrapState(
    upto: nat,
    snapshot: Option<Ops>,
    updates: seq<(Kind, Ops)>,
    contributors: seq<Contributor>)

  datatype PersistOutcome =
    | Accepted(id: nat, projected: bool)
    | ContentEpochChanged
    | AccessChanged
    | DocumentChanged

  datatype ReconcileOutcome =
    | Current(snapshot: Ops, upto: nat, textChanged: bool)
    | EpochChanged
    | RevisionChanged

  const PROJECTION_BATCH_SIZE: nat := 64

  function Payloads(updates: seq<(Kind, Ops)>): (payloads: seq<Ops>)
    ensures |payloads| == |updates| && forall i :: 0 <= i < |updates| ==> payloads[i] == updates[i].1
  {
    seq(|updates|, i requires 0 <= i < |updates| => updates[i].1)
  }

  /** What a loaded state says about compaction. */
  function Summary(state: BootstrapState): Loaded {
    Loaded(state.upto, state.snapshot, Join(Payloads(state.updates)), state.updates != [])
  }

  /** `ids` are the uncovered rows of `key` below `bound`, ascending, and `entries` their contents. */
  ghost predicate Listed(db: Db, key: DocKey, bound: nat, ids: seq<nat>, entries: seq<(Kind, Ops)>) {
    && (forall i, j :: 0 <= i < j < |ids| ==> ids[i] < ids[j])
    && (forall id :: id in ids <==> id in Pending(db, key) && id < bound)
    && |entries| == |ids|
    && (forall i :: 0 <= i < |ids| ==>
          ids[i] in db.updates && entries[i] == (db.updates[ids[i]].kind, db.updates[ids[i]].ops))
  }

  /** `contributors` are the authors of the rows in `ids`, each once. */
  ghost predicate Credited(db: Db, ids: seq<nat>, contributors: seq<Contributor>) {
    && (forall i, j :: 0 <= i < j < |contributors| ==> contributors[i] != contributors[j])
    && (forall c :: c in contributors <==>
          exists id :: id in ids && id in db.updates && db.updates[id].contributor == Some(c))
  }

  /** The state is the snapshot and, oldest first, the uncovered rows of `key` and their authors. */
  ghost predicate Describes(db: Db, key: DocKey, state: BootstrapState, ids: seq<nat>) {
    && Listed(db, key, db.nextId, ids, state.updates)
    && Credited(db, ids, state.contributors)
    && Summary(state) == Load(db, key)
  }

  lemma ListedNext(db: Db, key: DocKey, id: nat, ids: seq<nat>, entries: seq<(Kind, Ops)>)
    requires Listed(db, key, id, ids, entries)
    ensures if id in Pending(db, key)
            then Listed(db, key, id + 1, ids + [id], entries + [(db.updates[id].kind, db.updates[id].ops)])
            else Listed(db, key, id + 1, ids, entries)
  {
    assert forall k :: k in ids + [id] <==> k in ids || k == id;
    assert forall i :: 0 <= i < |ids| ==> ids[i] in ids;
  }

  lemma CreditedNext(db: Db, ids: seq<nat>, contributors: seq<Contributor>, id: nat)
    requires Credited(db, ids, contributors) && id in db.updates
    ensures var author := db.updates[id].contributor;
            Credited(db, ids + [id],
                     if author.Some? && author.value !in contributors then contributors + [author.value] else contributors)
  {
    forall c
      ensures (exists k :: k in ids + [id] && k in db.updates && db.updates[k].contributor == Some(c))
              <==> c in contributors || Some(c) == db.updates[id].contributor
    {
      if c in contributors {
        var k :| k in ids && k in db.updates && db.updates[k].contributor == Some(c);
        assert k in ids + [id];
      } else if Some(c) == db.updates[id].contributor {
        assert id in ids + [id];
      }
    }
  }

  lemma DescribesLoaded(db: Db, key: DocKey, state: BootstrapState, ids: seq<nat>)
    requires RowsFit(db) && Listed(db, key, db.nextId, ids, state.updates) && Credited(db, ids, state.contributors)
    requires state.snapshot == Compacted(db, key)
    requires state.upto == if ids == [] then Upto(db, key) else ids[|ids| - 1]
    ensures Describes(db, key, state, ids)
  {
    OpsOfListed(db, ids, Payloads(state.updates), Pending(db, key));
    if ids != [] {
      assert ids[|ids| - 1] in Pending(db, key);
    }
    forall id | id in Pending(db, key)
      ensures id <= state.upto
    {
      var i :| 0 <= i < |ids| && ids[i] == id;
    }
    LastIsUnique(Pending(db, key), Upto(db, key), state.upto);
  }

  lemma OpsOfListed(db: Db, ids: seq<nat>, payloads: seq<Ops>, listed: set<nat>)
    requires forall id :: id in ids <==> id in listed
    requires |payloads| == |ids|
    requires forall i :: 0 <= i < |ids| ==> ids[i] in db.updates && payloads[i] == db.updates[ids[i]].ops
    ensures OpsOf(db.updates, listed) == Join(payloads)
  {
    forall op | op in OpsOf(db.updates, listed)
      ensures op in Join(payloads)
    {
      var id :| id in listed && id in db.updates && op in db.updates[id].ops;
      var i :| 0 <= i < |ids| && ids[i] == id;
      assert op in payloads[i];
    }
    forall op | op in Join(payloads)
      ensures op in OpsOf(db.updates, listed)
    {
      var i :| 0 <= i < |payloads| && op in payloads[i];
      assert ids[i] in listed;
    }
  }

  /** What an accepted update leaves: its row is inserted and, for a sync, compacted at once. */
  ghost function Admitted(config: Config, db: Db, row: Row): Db {
    var inserted := InsertRow(db.(nextId := db.nextId + 1), db.nextId, row);
    if row.kind.Sync? then Reconciled(config, inserted, row.key, Load(inserted, row.key), None)
    else PruneUpdates(inserted, row.key, db.nextId, config.retention)
  }

  /** The store's update is the writer transaction of the interleaving model, run without a pause. */
  lemma AdmittedIsTheWriter(config: Config, s: Sys, t: nat, row: Row, access: nat)
    requires t in s.txs && s.txs[t].key == row.key && s.txs[t].drawn == Some(s.db.nextId - 1) && s.db.nextId > 0
    requires s.txs[t].role == Writer(row.kind, row.ops, access, row.contributor) && Enabled(s, CommitUpdate(t))
    requires row.kind.Sync? ==> s.txs[t].loaded == Some(Load(OwnView(s.db, s.txs[t]), row.key))
    ensures Apply(config, s, CommitUpdate(t)).db == Admitted(config, s.db.(nextId := s.db.nextId - 1), row)
  {
  }

  lemma NumberedInsertion(codec: Codec, db: Db, row: Row)
    requires Consistent(codec, db) && Live(db, row.key)
    ensures var numbered := db.(nextId := db.nextId + 1);
            var inserted := InsertRow(numbered, db.nextId, row);
            && Consistent(codec, inserted) && Live(inserted, row.key) && SameElsewhere(numbered, inserted, {row.key.document})
            && Durable(inserted, row.key) == Durable(db, row.key) + row.ops
  {
    var numbered := db.(nextId := db.nextId + 1);
    InsertEffect(codec, numbered, db.nextId, row);
    SameElsewhereLoads(db, numbered, {}, row.key);
  }

  lemma SyncAdmitted(config: Config, numbered: Db, inserted: Db, db': Db, key: DocKey)
    requires db' == Reconciled(config, inserted, key, Load(inserted, key), None)
    requires Consistent(config.codec, inserted) && Live(inserted, key) && SameElsewhere(numbered, inserted, {key.document})
    ensures Consistent(config.codec, db') && Durable(db', key) == Durable(inserted, key)
    ensures SameElsewhere(numbered, db', {key.document}) && Pending(db', key) == {}
    ensures key.document in db'.docs && TextOf(db', key) == config.codec.text(Durable(db', key))
  {
    ReconcileEffect(config, inserted, key, None);
    SeededCompaction(inserted, key, None);
    SameElsewhereChains(numbered, inserted, db', {key.document});
  }

  lemma PlainAdmitted(config: Config, numbered: Db, inserted: Db, db': Db, key: DocKey, latest: nat)
    requires db' == PruneUpdates(inserted, key, latest, config.retention)
    requires Consistent(config.codec, inserted) && SameElsewhere(numbered, inserted, {key.document})
    ensures Consistent(config.codec, db') && Durable(db', key) == Durable(inserted, key)
    ensures SameElsewhere(numbered, db', {key.document})
  {
    PruneKeepsDurable(inserted, key, latest, config.retention, key);
    PruneFits(config.codec, inserted, key, latest, config.retention);
    SameElsewhereChains(numbered, inserted, db', {key.document});
  }

  /** An accepted update adds its operations to what is durable and nothing else changes meaning. */
  lemma AdmittedEffect(config: Config, db: Db, db': Db, row: Row)
    requires Consistent(config.codec, db) && Live(db, row.key) && db' == Admitted(config, db, row)
    ensures Consistent(config.codec, db')
            && Durable(db', row.key) == Durable(db, row.key) + row.ops
            && SameElsewhere(db.(nextId := db.nextId + 1), db', {row.key.document})
            && (row.kind.Sync? ==>
                  Pending(db', row.key) == {} && row.key.document in db'.docs
                  && TextOf(db', row.key) == config.codec.text(Durable(db', row.key)))
  {
    var numbered := db.(nextId := db.nextId + 1);
    var inserted := InsertRow(numbered, db.nextId, row);
    NumberedInsertion(config.codec, db, row);
    if row.kind.Sync? {
      SyncAdmitted(config, numbered, inserted, db', row.key);
    } else {
      PlainAdmitted(config, numbered, inserted, db', row.key, db.nextId);
    }
  }

  lemma DescribedIsRead(db: Db, key: DocKey, state: BootstrapState, ids: seq<nat>)
    requires RowsFit(db) && Describes(db, key, state, ids)
    ensures ReadsBack(db, key, state.snapshot, ids, state.updates, state.contributors)
  {
    forall id
      ensures id in ids <==> Later(db, key, id)
    {
      PendingIsLater(db, key, id);
    }
    forall c
      ensures c in state.contributors <==>
        exists i :: 0 <= i < |ids| && ids[i] in db.updates && db.updates[ids[i]].contributor == Some(c)
    {
      if c in state.contributors {
        var id :| id in ids && id in db.updates && db.updates[id].contributor == Some(c);
        var i :| 0 <= i < |ids| && ids[i] == id;
      }
    }
  }

  /** The accepted row, as it was sent, and what a sync makes of the document. */
  lemma AdmittedOutcome(config: Config, db: Db, row: Row)
    requires Consistent(config.codec, db) && Live(db, row.key)
    ensures row.kind == Update ==> PlainAccepted(config.retention, db, row, Admitted(config, db, row))
    ensures row.kind == Sync ==> SyncAccepted(config, db, row, Admitted(config, db, row))
  {
    if row.kind == Update {
      PrunedRows(InsertRow(db.(nextId := db.nextId + 1), db.nextId, row), row.key, db.nextId, config.retention);
    } else {
      SyncOutcome(config, db, row);
    }
  }

  lemma SyncOutcome(config: Config, db: Db, row: Row)
    requires Consistent(config.codec, db) && Live(db, row.key) && row.kind == Sync
    ensures SyncAccepted(config, db, row, Admitted(config, db, row))
  {
    var inserted := InsertRow(db.(nextId := db.nextId + 1), db.nextId, row);
    InsertionStaysConsistent(config.codec, db, row);
    ReconciledOutcome(config, inserted, row.key, None);
    AfterInsertion(db, row);
    var merged := Compaction(Load(db, row.key), None) + row.ops;
    MergedTogether(db, row, merged);
    assert Compacts(config, inserted, row.key, merged, db.nextId, Admitted(config, db, row));
  }

  lemma MergedTogether(db: Db, row: Row, merged: Ops)
    requires RowsFit(db) && merged == Compaction(Load(db, row.key), None) + row.ops
    ensures Together(db, row.key, row.ops, merged)
  {
    LoadedTogether(db, row.key, None);
  }

  lemma AdmittedOthers(config: Config, db: Db, row: Row, other: DocKey)
    requires Consistent(config.codec, db) && Live(db, row.key) && Live(db, other) && other != row.key
    ensures Durable(Admitted(config, db, row), other) == Durable(db, other)
  {
    AdmittedEffect(config, db, Admitted(config, db, row), row);
    if other.document == row.key.document {
      LiveKeyUnique(db, other, row.key);
    }
    var numbered := db.(nextId := db.nextId + 1);
    SameElsewhereLoads(db, numbered, {}, other);
    SameElsewhereLoads(numbered, Admitted(config, db, row), {row.key.document}, other);
  }

  lemma InsertionStaysConsistent(codec: Codec, db: Db, row: Row)
    requires Consistent(codec, db) && Live(db, row.key)
    ensures Consistent(codec, InsertRow(db.(nextId := db.nextId + 1), db.nextId, row))
  {
    InsertEffect(codec, db.(nextId := db.nextId + 1), db.nextId, row);
  }

  /** Nothing became uncovered, and the rows of `key` no longer are. */
  predicate RowsOfKeySettled(db: Db, db': Db, key: DocKey) {
    Uncovered(db') <= Uncovered(db) - Pending(db, key)
  }

  lemma FlushSettlesRows(config: Config, db: Db, key: DocKey)
    requires Consistent(config.codec, db)
    requires key.project in db.content && db.content[key.project] == key.epoch
    ensures RowsOfKeySettled(db, FlushOne(config, db, key), key)
  {
    var db' := FlushOne(config, db, key);
    FlushOneEffect(config, db, key);
    FlushedRows(config, db, [key]);
    forall id | id in Uncovered(db')
      ensures id in Uncovered(db) && id !in Pending(db, key)
    {
      assert id in Pending(db', db'.updates[id].key);
      assert id in Pending(db, db'.updates[id].key);
    }
  }

  /** What a flush of all listed documents achieves, as a fact about tables. */
  lemma FlushedProject(config: Config, db: Db, project: nat, keys: seq<DocKey>)
    requires Consistent(config.codec, db) && PendingList(db, project, keys)
    requires forall key :: key in keys ==> key.project in db.content && db.content[key.project] == key.epoch
    ensures var db' := Flushed(config, db, keys);
            && Consistent(config.codec, db')
            && (forall key: DocKey :: key.project == project ==> Pending(db', key) == {})
            && (forall key: DocKey :: Live(db, key) ==> Live(db', key) && Durable(db', key) == Durable(db, key))
            && (forall key: DocKey :: key.project == project && Live(db', key) ==> TextShown(config.codec, db', key))
  {
    var db' := Flushed(config, db, keys);
    FlushEffect(config, db, keys, DocumentsNamed(keys));
    forall key: DocKey | key.project == project
      ensures Pending(db', key) == {}
    {
      assert Pending(db', key) <= Pending(db, key);
      assert key in keys || Pending(db, key) == {};
    }
    ShownOncePending(config.codec, db', project);
  }

  /** A bootstrap as a fact about tables. */
  ghost function Bootstrapped(config: Config, db: Db, key: DocKey, seed: Option<Ops>): Db {
    var cleared := ClearSupersededRevisions(db, key);
    Reconciled(config, cleared, key, Load(cleared, key), seed)
  }

  lemma BootstrapEffect(config: Config, db: Db, key: DocKey, seed: Option<Ops>)
    requires Consistent(config.codec, db) && Live(db, key)
    requires seed.Some? ==> !HasSnapshot(db, key) && Pending(db, key) == {}
    ensures var db' := Bootstrapped(config, db, key, seed);
            && Consistent(config.codec, db') && Live(db', key)
            && HasSnapshot(db', key) && Pending(db', key) == {}
            && Compaction(Load(db, key), seed) == Durable(db', key) && Load(db, key).upto == Upto(db', key)
            && Durable(db', key) == Durable(db, key) + Base(seed)
            && TextOf(db', key) == config.codec.text(Durable(db', key))
  {
    ClearSupersededEffect(config.codec, db, key);
    SeededCompaction(db, key, seed);
    ReconcileEffect(config, ClearSupersededRevisions(db, key), key, seed);
  }

  function DocumentsNamed(keys: seq<DocKey>): set<nat> {
    set key | key in keys :: key.document
  }

  lemma NothingListed(db: Db, project: nat)
    requires forall id :: id in db.updates ==> db.updates[id].key.project != project
    ensures PendingList(db, project, [])
    ensures forall key: DocKey :: key.project == project ==> Pending(db, key) == {}
  {
  }

  lemma ListedIsPending(db: Db, project: nat, latest: nat, keys: seq<DocKey>)
    requires RowsFit(db)
    requires forall id :: id in db.updates && db.updates[id].key.project == project ==> id <= latest
    requires forall i, j :: 0 <= i < j < |keys| ==> keys[i] != keys[j]
    requires forall key :: key in keys <==> key.project == project && exists id :: id in Pending(db, key) && id <= latest
    ensures PendingList(db, project, keys)
    ensures forall key :: key in keys ==> key.project in db.content && db.content[key.project] == key.epoch
  {
    forall key: DocKey | key.project == project && Pending(db, key) != {}
      ensures key in keys
    {
      var id :| id in Pending(db, key);
    }
    forall key | key in keys
      ensures key.project in db.content && db.content[key.project] == key.epoch
    {
      PendingIsCurrent(db, key);
    }
  }

  lemma ShownOncePending(codec: Codec, db: Db, project: nat)
    requires Consistent(codec, db)
    requires forall key: DocKey :: key.project == project ==> Pending(db, key) == {}
    ensures forall key: DocKey :: key.project == project && Live(db, key) ==> TextShown(codec, db, key)
  {
    forall key: DocKey | key.project == project && Live(db, key)
      ensures TextShown(codec, db, key)
    {
      NothingPendingShows(codec, db, key);
    }
  }

  /** The same documents, of the same projects and at the same revisions. */
  predicate SameDocuments(docs: map<nat, Doc>, docs': map<nat, Doc>) {
    docs'.Keys == docs.Keys && forall d :: d in docs ==> docs'[d] == docs[d].(content := docs'[d].content)
  }

  /** The document is there and its text is another one. */
  predicate Retold(docs: map<nat, Doc>, docs': map<nat, Doc>, d: nat) {
    d in docs && d in docs' && docs'[d].content != docs[d].content
  }

  /** After `i` listed documents, `changed` are the current ones whose text is no longer what it was. */
  ghost predicate ToldSoFar(db: Db, docs: map<nat, Doc>, listed: seq<DocKey>, i: nat, changed: seq<DocKey>)
    requires i <= |listed|
  {
    && SameDocuments(db.docs, docs)
    && (forall d :: Retold(db.docs, docs, d) ==> exists j :: 0 <= j < i && listed[j].document == d && Live(db, listed[j]))
    && (forall key :: key in changed <==> key in listed[..i] && Live(db, key) && Retold(db.docs, docs, key.document))
    && (forall j, k :: 0 <= j < k < |changed| ==> changed[j] != changed[k])
  }

  lemma SameLive(db: Db, db': Db, key: DocKey)
    requires db'.content == db.content && SameDocuments(db.docs, db'.docs)
    ensures Live(db', key) <==> Live(db, key)
  {
  }

  /** One more listed document: only its own text can change, and only if it is current. */
  lemma ChangedNext(db: Db, before: map<nat, Doc>, after: map<nat, Doc>, listed: seq<DocKey>, i: nat,
                    told: seq<DocKey>, changed: seq<DocKey>)
    requires i < |listed| && ToldSoFar(db, before, listed, i, told)
    requires forall j, k :: 0 <= j < k < |listed| ==> listed[j] != listed[k]
    requires !Live(db, listed[i]) ==> after == before && changed == told
    requires Live(db, listed[i]) ==>
      && listed[i].document in before && listed[i].document in after
      && after == before[listed[i].document := before[listed[i].document].(content := after[listed[i].document].content)]
      && changed == (if Retold(before, after, listed[i].document) then told + [listed[i]] else told)
    ensures ToldSoFar(db, after, listed, i + 1, changed)
  {
    var key := listed[i];
    assert listed[..i + 1] == listed[..i] + [key] && key !in listed[..i];
    if Live(db, key) {
      NotToldYet(db, before, listed, i);
      TextsNext(db, before, after, listed, i);
      forall k
        ensures k in changed <==> k in listed[..i + 1] && Live(db, k) && Retold(db.docs, after, k.document)
      {
        ChangedIff(db, before, after, listed, i, told, changed, k);
      }
      assert key !in told;
    } else {
      forall k
        ensures k in listed[..i + 1] && Live(db, k) <==> k in listed[..i] && Live(db, k)
      {
      }
    }
  }

  /** A current document has no other current key, so its text is still the old one. */
  lemma NotToldYet(db: Db, before: map<nat, Doc>, listed: seq<DocKey>, i: nat)
    requires i < |listed| && Live(db, listed[i])
    requires forall j, k :: 0 <= j < k < |listed| ==> listed[j] != listed[k]
    requires forall d :: Retold(db.docs, before, d) ==>
      exists j :: 0 <= j < i && listed[j].document == d && Live(db, listed[j])
    ensures !Retold(db.docs, before, listed[i].document)
    ensures forall k :: k in listed[..i] && Live(db, k) ==> k.document != listed[i].document
  {
    forall k | Live(db, k) && k.document == listed[i].document
      ensures k == listed[i]
    {
      LiveKeyUnique(db, k, listed[i]);
    }
  }

  lemma TextsNext(db: Db, before: map<nat, Doc>, after: map<nat, Doc>, listed: seq<DocKey>, i: nat)
    requires i < |listed| && Live(db, listed[i]) && SameDocuments(db.docs, before)
    requires listed[i].document in before && listed[i].document in after
    requires after == before[listed[i].document := before[listed[i].document].(content := after[listed[i].document].content)]
    requires forall d :: Retold(db.docs, before, d) ==>
      exists j :: 0 <= j < i && listed[j].document == d && Live(db, listed[j])
    ensures SameDocuments(db.docs, after)
    ensures forall d :: Retold(db.docs, after, d) ==>
      exists j :: 0 <= j < i + 1 && listed[j].document == d && Live(db, listed[j])
  {
    forall d | Retold(db.docs, after, d)
      ensures exists j :: 0 <= j < i + 1 && listed[j].document == d && Live(db, listed[j])
    {
      if d == listed[i].document {
        assert listed[i].document == d;
      } else {
        assert Retold(db.docs, before, d);
      }
    }
  }

  lemma ChangedIff(db: Db, before: map<nat, Doc>, after: map<nat, Doc>, listed: seq<DocKey>, i: nat,
                   told: seq<DocKey>, changed: seq<DocKey>, k: DocKey)
    requires i < |listed| && Live(db, listed[i]) && SameDocuments(db.docs, before)
    requires listed[i].document in before && listed[i].document in after
    requires after == before[listed[i].document := before[listed[i].document].(content := after[listed[i].document].content)]
    requires changed == (if Retold(before, after, listed[i].document) then told + [listed[i]] else told)
    requires k in told <==> k in listed[..i] && Live(db, k) && Retold(db.docs, before, k.document)
    requires listed[i] !in listed[..i] && !Retold(db.docs, before, listed[i].document)
    requires k in listed[..i] && Live(db, k) ==> k.document != listed[i].document
    ensures k in changed <==> k in listed[..i + 1] && Live(db, k) && Retold(db.docs, after, k.document)
  {
    assert listed[..i + 1] == listed[..i] + [listed[i]];
  }

  function TextOf(db: Db, key: DocKey): string
    requires key.document in db.docs
  {
    db.docs[key.document].content
  }

  class CollaborationStore {
    const config: Config
    var content: map<nat, nat>
    var access: map<nat, nat>
    var docs: map<nat, Doc>
    var updates: map<nat, Row>
    var snapshots: map<Slot, Snapshot>
    var nextId: nat

    function View(): Db
      reads this
    {
      Db(content, access, docs, updates, snapshots, nextId)
    }

    ghost predicate Valid()
      reads this
    {
      Consistent(config.codec, View())
    }

    constructor (config: Config)
      ensures Valid() && this.config == config
      ensures View() == Db(map[], map[], map[], map[], map[], 1)
    {
      this.config := config;
      content, access, docs, updates, snapshots, nextId := map[], map[], map[], map[], map[], 1;
    }

    // ---- statements ----

    method InsertUpdate(row: Row) returns (id: nat)
      modifies this
      ensures id == old(nextId)
      ensures View() == InsertRow(old(View()).(nextId := old(nextId) + 1), id, row)
    {
      id := nextId;
      nextId := nextId + 1;
      updates := updates[id := row];
    }

    method UpsertSnapshot(key: DocKey, upto: nat, state: Ops)
      modifies this
      ensures View() == CollabTables.UpsertSnapshot(old(View()), key, upto, state)
    {
      var slot := SlotOf(key);
      var stored := Snapshot(key.epoch, upto, state);
      if slot !in snapshots {
        snapshots := snapshots[slot := stored];
      } else {
        var existing := snapshots[slot];
        if existing.epoch < key.epoch || (existing.epoch == key.epoch && existing.upto <= upto) {
          snapshots := snapshots[slot := stored];
        }
      }
    }

    method PruneUpdates(key: DocKey, latest: nat)
      modifies this
      ensures View() == CollabTables.PruneUpdates(old(View()), key, latest, config.retention)
    {
      var cutoff: int := latest - config.retention;
      if cutoff <= 0 {
        return;
      }
      if HasSnapshot(View(), key) && snapshots[SlotOf(key)].upto >= cutoff {
        updates := map id | id in updates && !(updates[id].key == key && id < cutoff) :: updates[id];
      }
    }

    /** Reads the snapshot and then, in order, every later row of the same revision and epoch. */
    method LoadState(key: DocKey) returns (state: BootstrapState, ghost ids: seq<nat>)
      requires Valid()
      ensures Describes(View(), key, state, ids)
      ensures Summary(state) == Load(View(), key)
      ensures ReadsBack(View(), key, state.snapshot, ids, state.updates, state.contributors)
      ensures state.upto == if ids != [] then ids[|ids| - 1]
                            else if Covers(View(), key, 0) then snapshots[Slot(key.project, key.document, key.revision)].upto
                            else 0
    {
      var snapshot: Option<Ops> := None;
      var upto := 0;
      if HasSnapshot(View(), key) {
        upto := snapshots[SlotOf(key)].upto;
        snapshot := Some(snapshots[SlotOf(key)].state);
      }
      var entries, contributors;
      upto, entries, contributors, ids := ScanRows(key, upto);
      state := BootstrapState(upto, snapshot, entries, contributors);
      DescribesLoaded(View(), key, state, ids);
      DescribedIsRead(View(), key, state, ids);
    }

    /** The loop over the selected rows: the last identifier, the payloads and who wrote them. */
    method ScanRows(key: DocKey, covered: nat)
        returns (upto: nat, entries: seq<(Kind, Ops)>, contributors: seq<Contributor>, ghost ids: seq<nat>)
      requires covered == Upto(View(), key)
      ensures Listed(View(), key, nextId, ids, entries) && Credited(View(), ids, contributors)
      ensures upto == if ids == [] then covered else ids[|ids| - 1]
    {
      upto, entries, contributors, ids := covered, [], [], [];
      var seen: set<Contributor> := {};
      var db := View();
      for id := 0 to nextId
        invariant Listed(db, key, id, ids, entries) && Credited(db, ids, contributors)
        invariant upto == if ids == [] then covered else ids[|ids| - 1]
        invariant forall c :: c in seen <==> c in contributors
      {
        ListedNext(db, key, id, ids, entries);
        if id in Pending(db, key) {
          var row := updates[id];
          CreditedNext(db, ids, contributors, id);
          ids := ids + [id];
          upto := id;
          if row.contributor.Some? && row.contributor.value !in seen {
            seen := seen + {row.contributor.value};
            contributors := contributors + [row.contributor.value];
          }
          entries := entries + [(row.kind, row.ops)];
        }
      }
    }

    // ---- compaction and projection ----

    /** Merges the state, projects its text, stores the snapshot and prunes; a document that has
      moved on loses its rows instead, and a project that has moved on is left alone. */
    method Reconcile(key: DocKey, state: BootstrapState, seed: Option<Ops>) returns (outcome: ReconcileOutcome)
      modifies this
      ensures outcome.Current? <==> Live(old(View()), key)
      ensures outcome.Current? ==>
        && View() == Reconciled(config, old(View()), key, Summary(state), seed)
        && outcome.snapshot == Compaction(Summary(state), seed) && outcome.upto == state.upto
        && (outcome.textChanged <==> TextOf(old(View()), key) != config.codec.text(outcome.snapshot))
      ensures outcome.EpochChanged? <==>
        !(key.project in old(content) && old(content)[key.project] == key.epoch)
      ensures outcome.EpochChanged? ==> View() == old(View())
      ensures outcome.RevisionChanged? ==> View() == ClearRevision(old(View()), key)
    {
      var update, text := MergeUpdates(config.codec, if state.snapshot.Some? then state.snapshot else seed,
                                       Payloads(state.updates));
      if key.project !in content || content[key.project] != key.epoch {
        return EpochChanged;
      }
      if !Matches(View(), key) {
        updates := map id | id in updates && !(SlotOf(updates[id].key) == SlotOf(key)) :: updates[id];
        snapshots := map slot | slot in snapshots && slot != SlotOf(key) :: snapshots[slot];
        return RevisionChanged;
      }
      var changed := docs[key.document].content != text;
      if changed {
        docs := docs[key.document := docs[key.document].(content := text)];
      }
      assert View() == Project(old(View()), key.document, text);
      UpsertSnapshot(key, state.upto, update);
      PruneUpdates(key, state.upto);
      outcome := Current(update, state.upto, changed);
    }

    /** Admits an update if the project's epochs and the document's revision are still those the
      connection carries; the checks come in this order and a refusal changes nothing. */
    method PersistUpdate(key: DocKey, kind: Kind, ops: Ops, epoch: nat, contributor: Option<Contributor>)
        returns (outcome: PersistOutcome)
      requires Valid()
      modifies this
      ensures Valid()
      ensures outcome.Accepted? <==>
        Live(old(View()), key) && key.project in old(access) && old(access)[key.project] == epoch
      ensures outcome.Accepted? ==>
        && outcome.id == old(nextId) && (outcome.projected <==> kind.Sync?)
        && View() == Admitted(config, old(View()), Row(key, kind, ops, contributor))
        && Durable(View(), key) == Durable(old(View()), key) + ops
        && (forall other: DocKey :: Live(old(View()), other) && other != key ==>
              Durable(View(), other) == Durable(old(View()), other))
      ensures outcome.Accepted? && kind == Update ==>
        updates[old(nextId)] == Row(key, kind, ops, contributor)
        && PlainAccepted(config.retention, old(View()), Row(key, kind, ops, contributor), View())
      ensures outcome.Accepted? && kind == Sync ==> SyncAccepted(config, old(View()), Row(key, kind, ops, contributor), View())
      ensures !outcome.Accepted? ==> View() == old(View())
      ensures outcome.AccessChanged? <==>
        && key.project in old(content) && old(content)[key.project] == key.epoch
        && key.project in old(access) && old(access)[key.project] != epoch
      ensures outcome.DocumentChanged? <==>
        && key.project in old(content) && old(content)[key.project] == key.epoch
        && key.project in old(access) && old(access)[key.project] == epoch && !Matches(old(View()), key)
    {
      if key.project !in content || content[key.project] != key.epoch {
        return ContentEpochChanged;
      }
      if key.project !in access {
        return ContentEpochChanged;
      }
      if access[key.project] != epoch {
        return AccessChanged;
      }
      if !Matches(View(), key) {
        return DocumentChanged;
      }
      var row := Row(key, kind, ops, contributor);
      AdmittedEffect(config, View(), Admitted(config, View(), row), row);
      AdmittedOutcome(config, View(), row);
      forall other: DocKey | Live(View(), other) && other != key
        ensures Durable(Admitted(config, View(), row), other) == Durable(View(), other)
      {
        AdmittedOthers(config, View(), row, other);
      }
      var id := Admit(row);
      outcome := Accepted(id, kind.Sync?);
    }

    method Admit(row: Row) returns (id: nat)
      requires Valid() && Live(View(), row.key)
      modifies this
      ensures id == old(nextId) && View() == Admitted(config, old(View()), row)
    {
      InsertionStaysConsistent(config.codec, View(), row);
      id := InsertUpdate(row);
      if row.kind.Sync? {
        var state, _ := LoadState(row.key);
        var _ := Reconcile(row.key, state, None);
      } else {
        PruneUpdates(row.key, id);
      }
    }

    /** One pending document in a transaction of its own. */
    method ReconcilePendingDocument(key: DocKey) returns (outcome: ReconcileOutcome)
      requires Valid()
      modifies this
      ensures View() == FlushOne(config, old(View()), key)
      ensures outcome.Current? <==> Live(old(View()), key)
      ensures !outcome.Current? ==> docs == old(docs)
      ensures outcome.Current? ==>
        && key.document in docs && docs == old(docs)[key.document := old(docs)[key.document].(content := docs[key.document].content)]
        && (outcome.textChanged <==> docs[key.document].content != old(docs)[key.document].content)
      ensures key.project in old(content) && old(content)[key.project] == key.epoch ==>
        Valid() && content == old(content) && RowsOfKeySettled(old(View()), View(), key)
    {
      if key.project !in content || content[key.project] != key.epoch {
        return EpochChanged;
      }
      FlushOneEffect(config, View(), key);
      FlushSettlesRows(config, View(), key);
      var state, _ := LoadState(key);
      outcome := Reconcile(key, state, None);
    }

    /** The project's documents with an uncovered row up to `upto`, by their first such row. */
    method PendingProjectDocuments(project: nat, upto: nat) returns (keys: seq<DocKey>, ghost firsts: seq<nat>)
      requires Valid()
      ensures forall i, j :: 0 <= i < j < |keys| ==> keys[i] != keys[j]
      ensures forall key :: key in keys <==>
        key.project == project && exists id :: id in Pending(View(), key) && id <= upto
      ensures |firsts| == |keys| && forall i, j :: 0 <= i < j < |keys| ==> firsts[i] < firsts[j]
      ensures forall i :: 0 <= i < |keys| ==>
        firsts[i] in Pending(View(), keys[i]) && forall id :: id in Pending(View(), keys[i]) ==> firsts[i] <= id
    {
      keys, firsts := [], [];
      ghost var db := View();
      var id := 0;
      while id < nextId && id <= upto
        invariant id <= nextId && id <= upto + 1
        invariant forall i, j :: 0 <= i < j < |keys| ==> keys[i] != keys[j]
        invariant |firsts| == |keys| && forall i, j :: 0 <= i < j < |keys| ==> firsts[i] < firsts[j]
        invariant forall i :: 0 <= i < |keys| ==>
          && keys[i].project == project && firsts[i] < id && firsts[i] in Pending(db, keys[i])
          && forall k :: k in Pending(db, keys[i]) ==> firsts[i] <= k
        invariant forall k | k < id && k in db.updates && db.updates[k].key.project == project
                             && k in Pending(db, db.updates[k].key) :: db.updates[k].key in keys
      {
        if id in updates && updates[id].key.project == project && id > Upto(View(), updates[id].key)
           && updates[id].key !in keys {
          var key := updates[id].key;
          keys, firsts := keys + [key], firsts + [id];
        }
        id := id + 1;
      }
      forall key | key in keys
        ensures key.project == project && exists id :: id in Pending(db, key) && id <= upto
      {
        var i :| 0 <= i < |keys| && keys[i] == key;
        assert firsts[i] in Pending(db, key) && firsts[i] <= upto;
      }
    }

    method LatestProjectUpdateId(project: nat) returns (latest: Option<nat>)
      requires Valid()
      ensures latest.None? ==> forall id :: id in updates ==> updates[id].key.project != project
      ensures latest.Some? ==>
        && latest.value in updates && updates[latest.value].key.project == project
        && forall id :: id in updates && updates[id].key.project == project ==> id <= latest.value
    {
      latest := None;
      for id := 0 to nextId
        invariant latest.None? ==> forall k :: k in updates && k < id ==> updates[k].key.project != project
        invariant latest.Some? ==>
          && latest.value in updates && updates[latest.value].key.project == project && latest.value < id
          && forall k :: k in updates && k < id && updates[k].key.project == project ==> k <= latest.value
      {
        if id in updates && updates[id].key.project == project {
          latest := Some(id);
        }
      }
    }

    /** Flushes the project: afterwards no update of it is pending, every document keeps its
      durable operations and the documents with a snapshot show their text. */
    method FlushProject(project: nat) returns (changed: seq<DocKey>, ghost keys: seq<DocKey>)
      requires Valid()
      modifies this
      ensures Valid() && PendingList(old(View()), project, keys)
      ensures View() == Flushed(config, old(View()), keys)
      ensures forall key: DocKey :: key.project == project ==> Pending(View(), key) == {}
      ensures forall key: DocKey :: Live(old(View()), key) ==>
        Live(View(), key) && Durable(View(), key) == Durable(old(View()), key)
      ensures forall key: DocKey :: key.project == project && Live(View(), key) ==> TextShown(config.codec, View(), key)
      ensures forall key :: key in changed <==>
        key in keys && Live(old(View()), key) && Retold(old(docs), docs, key.document)
      ensures forall i, j :: 0 <= i < j < |changed| ==> changed[i] != changed[j]
    {
      changed, keys := [], [];
      var latest := LatestProjectUpdateId(project);
      if latest.None? {
        NothingListed(View(), project);
      } else {
        var listed, _ := PendingProjectDocuments(project, latest.value);
        keys := listed;
        ListedIsPending(View(), project, latest.value, keys);
        FlushedProject(config, View(), project, keys);
        changed := ReconcileListed(listed);
        return;
      }
      FlushedProject(config, View(), project, keys);
    }

    method ReconcileListed(listed: seq<DocKey>) returns (changed: seq<DocKey>)
      requires Valid()
      requires forall key :: key in listed ==> key.project in content && content[key.project] == key.epoch
      requires forall i, j :: 0 <= i < j < |listed| ==> listed[i] != listed[j]
      modifies this
      ensures View() == Flushed(config, old(View()), listed) && content == old(content)
      ensures forall key :: key in changed <==>
        key in listed && Live(old(View()), key) && Retold(old(docs), docs, key.document)
      ensures forall i, j :: 0 <= i < j < |changed| ==> changed[i] != changed[j]
    {
      changed := [];
      for i := 0 to |listed|
        invariant Valid() && content == old(content)
        invariant Flushed(config, old(View()), listed) == Flushed(config, View(), listed[i..])
        invariant ToldSoFar(old(View()), docs, listed, i, changed)
      {
        ghost var before, told := docs, changed;
        SameLive(old(View()), View(), listed[i]);
        assert listed[i..][0] == listed[i] && listed[i..][1..] == listed[i + 1..];
        var outcome := ReconcilePendingDocument(listed[i]);
        if outcome.Current? && outcome.textChanged {
          changed := changed + [listed[i]];
        }
        ChangedNext(old(View()), before, docs, listed, i, told, changed);
      }
      assert listed[|listed|..] == [];
    }

    method NextPendingDocument() returns (next: Option<DocKey>, ghost id: nat)
      requires Valid()
      ensures next.None? ==> Uncovered(View()) == {}
      ensures next.Some? ==> id in Pending(View(), next.value) && forall k :: k in Uncovered(View()) ==> id <= k
    {
      id := 0;
      ghost var db := View();
      for k := 0 to nextId
        invariant forall j :: j in Uncovered(db) ==> k <= j
      {
        if k in updates && k > Upto(View(), updates[k].key) {
          id := k;
          return Some(updates[k].key), id;
        }
      }
      next := None;
    }

    /** One pass of the projector over at most a batch of documents. */
    method ProjectBatch() returns (idle: bool)
      requires Valid()
      modifies this
      ensures Valid() && content == old(content)
      ensures idle ==> Uncovered(View()) == {}
      ensures !idle ==> |Uncovered(View())| + 64 <= |Uncovered(old(View()))|
    {
      for i := 0 to PROJECTION_BATCH_SIZE
        invariant Valid() && content == old(content)
        invariant |Uncovered(View())| + i <= |Uncovered(old(View()))|
      {
        var next, id := NextPendingDocument();
        if next.None? {
          return true;
        }
        PendingIsCurrent(View(), next.value);
        ghost var before := View();
        var _ := ReconcilePendingDocument(next.value);
        assert id in Uncovered(before);
        FewerLeft(Uncovered(View()), Uncovered(before), Pending(before, next.value));
      }
      idle := false;
    }

    /** With no new writes the projector reaches a state where nothing is pending. */
    method ProjectUntilIdle()
      requires Valid()
      modifies this
      ensures Valid() && Uncovered(View()) == {} && content == old(content)
    {
      var idle := false;
      while !idle
        invariant Valid() && content == old(content)
        invariant idle ==> Uncovered(View()) == {}
        decreases |Uncovered(View())|, !idle
      {
        idle := ProjectBatch();
      }
    }

    /** Seeds or compacts a document before a socket may write to it. */
    method PrepareDocumentBootstrap(key: DocKey) returns (state: Option<BootstrapState>)
      requires Valid()
      modifies this
      ensures Valid()
      ensures state.Some? <==> Live(old(View()), key)
      ensures state.None? ==> View() == old(View())
      ensures state.Some? ==>
        && HasSnapshot(View(), key) && Pending(View(), key) == {}
        && Merged(state.value.snapshot, Payloads(state.value.updates)) == Durable(View(), key)
        && state.value.upto == Upto(View(), key)
        && Durable(View(), key) == Durable(old(View()), key)
                                   + (if HasSnapshot(old(View()), key) || Pending(old(View()), key) != {} then {}
                                      else config.codec.seed(TextOf(old(View()), key)))
        && TextOf(View(), key) == config.codec.text(Durable(View(), key))
        && state.value.updates == [] && state.value.contributors == []
      // rows and snapshots of the document's other revisions are gone
      ensures state.Some? ==> OnlyRevision(View(), key)
    {
      if !Matches(View(), key) {
        return None;
      }
      var text := docs[key.document].content;
      var before := View();
      ClearSupersededEffect(config.codec, before, key);
      ClearSuperseded(key);
      ghost var cleared := View();
      assert OnlyRevision(cleared, key);
      var loaded, _ := LoadState(key);
      var seed := if loaded.snapshot.Some? || loaded.updates != [] then None else Some(config.codec.seed(text));
      if Live(before, key) {
        BootstrapEffect(config, before, key, seed);
      }
      var outcome := Reconcile(key, loaded, seed);
      StillOnlyRevision(config, cleared, key, Summary(loaded), seed);
      if !outcome.Current? {
        updates, snapshots := before.updates, before.snapshots;
        return None;
      }
      state := Some(BootstrapState(outcome.upto, Some(outcome.snapshot), [], []));
    }

    method ClearSuperseded(key: DocKey)
      modifies this
      ensures View() == ClearSupersededRevisions(old(View()), key)
    {
      updates := map id | id in updates
                          && !(updates[id].key.project == key.project && updates[id].key.document == key.document
                               && updates[id].key.revision != key.revision) :: updates[id];
      snapshots := map slot | slot in snapshots
                              && !(slot.project == key.project && slot.document == key.document
                                   && slot.revision != key.revision) :: snapshots[slot];
    }
  }
}
