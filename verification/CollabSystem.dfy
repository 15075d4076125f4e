/** The concurrent transactions of durable collaboration, one database statement at a time
  (backend/src/collaboration/updates.rs, projection.rs and bootstrap.rs).

  A transaction is the locks it holds and the values it has read so far. Its own writes
  stay with it until it commits. Locks are kept to the end, so any lock a step needs must
  be free of incompatible holders when the step is taken: a step that would wait is one
  that is not enabled yet. */
module CollabSystem {
  import opened Wrappers
  import opened YjsState
  import opened CollabTables

  /** How a transaction holds the content lock of its project. */
  datatype Lock = Unlocked | Shared | Exclusive

  datatype Role =
    | Writer(kind: Kind, ops: Ops, access: nat, contributor: Option<Contributor>)
    | Projector
    | Bootstrapper
    | Capturer

  datatype Tx = Tx(
    role: Role,
    key: DocKey,
    content: Lock,
    accessHeld: bool,
    documents: set<nat>,
    rowHeld: bool,
    drawn: Option<nat>,
    seed: Option<string>,
    loaded: Option<Loaded>)

  /** What commits leave behind, in commit order. */
  datatype Event =
    | Bootstrapped(key: DocKey, ops: Ops)
    | Acked(key: DocKey, access: nat, id: nat, ops: Ops)
    | ContentAdvanced(project: nat, created: set<nat>)
    | AccessAdvanced(project: nat)
    | Created(document: nat)
    | Revised(document: nat)

  /** `retired` are the identifiers of deleted documents, which are never handed out again;
    `canon` is the text last written to a document other than by projection. */
  datatype Sys = Sys(
    db: Db,
    txs: map<nat, Tx>,
    history: seq<Event>,
    retired: set<nat>,
    canon: map<nat, string>)

  datatype Action =
    | Begin(t: nat, role: Role, key: DocKey)
    | LockContent(t: nat)
    | LockAccess(t: nat)
    | LockDocument(t: nat, document: nat)
    | LockRow(t: nat)
    | DrawId(t: nat)
    | ReadSeed(t: nat)
    | LoadState(t: nat)
    | CommitUpdate(t: nat)
    | CommitReconcile(t: nat)
    | CommitSuperseded(t: nat)
    | CommitCapture(t: nat, keys: seq<DocKey>)
    | Abort(t: nat)
    | Replace(project: nat, texts: map<nat, string>)
    | Rewrite(document: nat, text: string)
    | Create(project: nat, document: nat, text: string)
    | Delete(document: nat)
    | AdvanceAccess(project: nat)

  /** A bootstrap of the key has committed: a socket reads no message before its own has. */
  ghost predicate Booted(history: seq<Event>, key: DocKey) {
    exists e :: e in history && e.Bootstrapped? && e.key == key
  }

  /** Some update of the key has committed: flushes and the projector only ever list such keys. */
  ghost predicate Written(history: seq<Event>, key: DocKey) {
    exists e :: e in history && e.Acked? && e.key == key
  }

  predicate Known(s: Sys, document: nat) {
    document in s.db.docs || document in s.retired
  }

  /** No transaction but `except` has the content lock of `project` exclusively. */
  ghost predicate NoExclusive(s: Sys, project: nat, except: Option<nat>) {
    forall u :: u in s.txs && Some(u) != except && s.txs[u].key.project == project ==>
      !s.txs[u].content.Exclusive?
  }

  ghost predicate NoContentHolder(s: Sys, project: nat, except: Option<nat>) {
    forall u :: u in s.txs && Some(u) != except && s.txs[u].key.project == project ==>
      s.txs[u].content.Unlocked?
  }

  /** The tables as the transaction sees them: with its own uncommitted statements. */
  function OwnView(db: Db, tx: Tx): Db {
    match tx.role
    case Writer(kind, ops, _, contributor) =>
      if tx.drawn.Some? then InsertRow(db, tx.drawn.value, Row(tx.key, kind, ops, contributor)) else db
    case Bootstrapper => ClearSupersededRevisions(db, tx.key)
    case _ => db
  }

  /** A bootstrap seeds the canonical text only when nothing at all was persisted. */
  function SeedFor(codec: Codec, tx: Tx): Option<Ops>
    requires tx.loaded.Some?
  {
    if tx.role.Bootstrapper? && tx.seed.Some? && tx.loaded.value.snapshot.None? && !tx.loaded.value.hasRows
    then Some(codec.seed(tx.seed.value))
    else None
  }

  /** One document of a flush: reconciled when current, its rows dropped when superseded. */
  ghost function FlushOne(config: Config, db: Db, key: DocKey): Db {
    if key.project !in db.content || db.content[key.project] != key.epoch then db
    else if !Matches(db, key) then ClearRevision(db, key)
    else Reconciled(config, db, key, Load(db, key), None)
  }

  ghost function Flushed(config: Config, db: Db, keys: seq<DocKey>): Db
    decreases |keys|
  {
    if keys == [] then db else Flushed(config, FlushOne(config, db, keys[0]), keys[1..])
  }

  /** `keys` lists each document of the project that has uncovered rows, once. */
  ghost predicate PendingList(db: Db, project: nat, keys: seq<DocKey>) {
    && (forall i, j :: 0 <= i < j < |keys| ==> keys[i] != keys[j])
    && (forall key :: key in keys <==> key.project == project && Pending(db, key) != {})
  }

  ghost predicate Enabled(s: Sys, a: Action) {
    match a
    case Begin(t, role, key) =>
      && t !in s.txs && (role.Capturer? || Known(s, key.document))
      && (role.Writer? ==> Booted(s.history, key))
      && (role.Projector? ==> Written(s.history, key))
    case LockContent(t) =>
      t in s.txs && var tx := s.txs[t];
      && tx.content.Unlocked?
      && tx.key.project in s.db.content
      && if tx.role.Capturer? then NoContentHolder(s, tx.key.project, Some(t))
         else
           && s.db.content[tx.key.project] == tx.key.epoch
           && NoExclusive(s, tx.key.project, Some(t))
           && (tx.role.Bootstrapper? ==> tx.loaded.Some?)
    case LockAccess(t) =>
      t in s.txs && var tx := s.txs[t];
      && tx.role.Writer? && tx.content.Shared?
      && tx.key.project in s.db.access && s.db.access[tx.key.project] == tx.role.access
    case LockDocument(t, document) =>
      t in s.txs && var tx := s.txs[t];
      && (forall u :: u in s.txs && u != t ==> document !in s.txs[u].documents)
      && (match tx.role
          case Writer(_, _, _, _) => tx.accessHeld && document == tx.key.document
          case Projector => tx.content.Shared? && document == tx.key.document
          case Bootstrapper => document == tx.key.document
          case Capturer => tx.content.Exclusive?)
    case LockRow(t) =>
      t in s.txs && var tx := s.txs[t];
      && tx.content.Shared? && tx.key.document in tx.documents
      && Matches(s.db, tx.key)
      && (match tx.role
          case Writer(_, _, _, _) => tx.accessHeld
          case Projector => tx.loaded.Some?
          case Bootstrapper => tx.loaded.Some?
          case Capturer => false)
    case DrawId(t) =>
      t in s.txs && s.txs[t].role.Writer? && s.txs[t].rowHeld && s.txs[t].drawn.None?
    case ReadSeed(t) =>
      t in s.txs && var tx := s.txs[t];
      && tx.role.Bootstrapper? && tx.key.document in tx.documents && tx.seed.None?
      && Matches(s.db, tx.key)
    case LoadState(t) =>
      t in s.txs && var tx := s.txs[t];
      && tx.loaded.None? && tx.key.document in tx.documents
      && (match tx.role
          case Writer(kind, _, _, _) => kind.Sync? && tx.drawn.Some?
          case Projector => true
          case Bootstrapper => tx.seed.Some?
          case Capturer => false)
    case CommitUpdate(t) =>
      t in s.txs && var tx := s.txs[t];
      && tx.role.Writer? && tx.drawn.Some?
      && (tx.role.kind.Sync? ==> tx.loaded.Some?)
    case CommitReconcile(t) =>
      t in s.txs && var tx := s.txs[t];
      && (tx.role.Projector? || tx.role.Bootstrapper?) && tx.rowHeld && tx.loaded.Some?
    case CommitSuperseded(t) =>
      t in s.txs && var tx := s.txs[t];
      && tx.role.Projector? && tx.content.Shared? && tx.loaded.Some? && !Matches(s.db, tx.key)
    case CommitCapture(t, keys) =>
      t in s.txs && var tx := s.txs[t];
      && tx.content.Exclusive?
      && PendingList(s.db, tx.key.project, keys)
      && (forall key :: key in keys ==> key.document in tx.documents)
    case Abort(t) => t in s.txs
    case Replace(project, texts) =>
      && project in s.db.content && NoContentHolder(s, project, None)
      && (forall d :: d in texts ==> !Known(s, d))
    case Rewrite(document, text) =>
      && document in s.db.docs && NoExclusive(s, s.db.docs[document].project, None)
      && (forall u :: u in s.txs && s.txs[u].rowHeld ==> s.txs[u].key.document != document)
    case Create(project, document, text) =>
      project in s.db.content && NoExclusive(s, project, None) && !Known(s, document)
    case Delete(document) =>
      document in s.db.docs && NoContentHolder(s, s.db.docs[document].project, None)
    case AdvanceAccess(project) =>
      && project in s.db.access
      && (forall u :: u in s.txs && s.txs[u].key.project == project ==> !s.txs[u].accessHeld)
  }

  function Begun(role: Role, key: DocKey): Tx {
    Tx(role, key, Unlocked, false, {}, false, None, None, None)
  }

  function ReplaceDocs(db: Db, project: nat, texts: map<nat, string>): Db
    requires project in db.content
  {
    var cleared := ClearProject(db, project);
    cleared.(
      content := db.content[project := db.content[project] + 1],
      docs := (map d | d in db.docs && db.docs[d].project != project :: db.docs[d])
              + map d | d in texts :: Doc(project, 0, texts[d]))
  }

  function RewriteDoc(db: Db, document: nat, text: string): Db
    requires document in db.docs
  {
    var doc := db.docs[document];
    db.(docs := db.docs[document := Doc(doc.project, doc.revision + 1, text)])
  }

  /** Deleting a document takes its rows and snapshots with it. */
  function DeleteDoc(db: Db, document: nat): Db {
    db.(docs := db.docs - {document},
        updates := map id | id in db.updates && db.updates[id].key.document != document :: db.updates[id],
        snapshots := map slot | slot in db.snapshots && slot.document != document :: db.snapshots[slot])
  }

  /** The tables after the update transaction of `tx` commits. */
  function UpdateCommitted(config: Config, db: Db, tx: Tx): Db
    requires tx.role.Writer? && tx.drawn.Some? && (tx.role.kind.Sync? ==> tx.loaded.Some?)
  {
    var inserted := OwnView(db, tx);
    match tx.role.kind
    case Sync => Reconciled(config, inserted, tx.key, tx.loaded.value, None)
    case Update => PruneUpdates(inserted, tx.key, tx.drawn.value, config.retention)
  }

  ghost function Apply(config: Config, s: Sys, a: Action): Sys
    requires Enabled(s, a)
  {
    match a
    case Begin(t, role, key) => s.(txs := s.txs[t := Begun(role, key)])
    case LockContent(t) =>
      s.(txs := s.txs[t := s.txs[t].(content := if s.txs[t].role.Capturer? then Exclusive else Shared)])
    case LockAccess(t) => s.(txs := s.txs[t := s.txs[t].(accessHeld := true)])
    case LockDocument(t, document) =>
      s.(txs := s.txs[t := s.txs[t].(documents := s.txs[t].documents + {document})])
    case LockRow(t) => s.(txs := s.txs[t := s.txs[t].(rowHeld := true)])
    case DrawId(t) =>
      s.(txs := s.txs[t := s.txs[t].(drawn := Some(s.db.nextId))], db := s.db.(nextId := s.db.nextId + 1))
    case ReadSeed(t) =>
      s.(txs := s.txs[t := s.txs[t].(seed := Some(s.db.docs[s.txs[t].key.document].content))])
    case LoadState(t) =>
      s.(txs := s.txs[t := s.txs[t].(loaded := Some(Load(OwnView(s.db, s.txs[t]), s.txs[t].key)))])
    case CommitUpdate(t) =>
      var tx := s.txs[t];
      s.(db := UpdateCommitted(config, s.db, tx),
         txs := s.txs - {t},
         history := s.history + [Acked(tx.key, tx.role.access, tx.drawn.value, tx.role.ops)])
    case CommitReconcile(t) =>
      var tx := s.txs[t];
      var seed := SeedFor(config.codec, tx);
      s.(db := Reconciled(config, OwnView(s.db, tx), tx.key, tx.loaded.value, seed),
         txs := s.txs - {t},
         history := if tx.role.Bootstrapper? then s.history + [Bootstrapped(tx.key, Base(seed))] else s.history)
    case CommitSuperseded(t) =>
      s.(db := ClearRevision(s.db, s.txs[t].key), txs := s.txs - {t})
    case CommitCapture(t, keys) =>
      s.(db := Flushed(config, s.db, keys), txs := s.txs - {t})
    case Abort(t) => s.(txs := s.txs - {t})
    case Replace(project, texts) =>
      s.(db := ReplaceDocs(s.db, project, texts),
         history := s.history + [ContentAdvanced(project, texts.Keys)],
         retired := s.retired + (set d | d in s.db.docs && s.db.docs[d].project == project),
         canon := s.canon + texts)
    case Rewrite(document, text) =>
      s.(db := RewriteDoc(s.db, document, text),
         history := s.history + [Revised(document)],
         canon := s.canon[document := text])
    case Create(project, document, text) =>
      s.(db := s.db.(docs := s.db.docs[document := Doc(project, 0, text)]),
         history := s.history + [Created(document)],
         canon := s.canon[document := text])
    case Delete(document) =>
      s.(db := DeleteDoc(s.db, document), retired := s.retired + {document})
    case AdvanceAccess(project) =>
      s.(db := s.db.(access := s.db.access[project := s.db.access[project] + 1]),
         history := s.history + [AccessAdvanced(project)])
  }

  /** Any tables without collaboration state, and no transaction yet. */
  ghost predicate Initial(s: Sys) {
    && s.db.updates == map[] && s.db.snapshots == map[] && s.db.nextId == 1
    && s.txs == map[] && s.history == [] && s.retired == {}
    && (forall d :: d in s.db.docs ==>
          s.db.docs[d].project in s.db.content && d in s.canon && s.canon[d] == s.db.docs[d].content)
  }

  /** The state after the first `n` actions of a run, all of them enabled in turn. */
  ghost predicate Run(config: Config, start: Sys, actions: seq<Action>, end: Sys)
    decreases |actions|
  {
    if actions == [] then end == start
    else Enabled(start, actions[0]) && Run(config, Apply(config, start, actions[0]), actions[1..], end)
  }
}
