/** The exact condition under which an ordinary flush covers everything up to its target
  (backend/src/collaboration/projection.rs, persistence.rs). */
module CollabFlushExact {
  import opened Wrappers
  import opened YjsState
  import opened CollabTables
  import opened CollabSystem
  import opened CollabInvariant
  import opened CollabCommits
  import opened CollabSteps
  import opened CollabFence
  import opened CollabBarrier
  import opened CollabRuns
  import opened CollabFlush

  // ---- rows are acknowledged updates ----

  ghost predicate Logged(s: Sys) {
    forall id :: id in s.db.updates ==> Written(s.history, s.db.updates[id].key)
  }

  lemma HistoryKept(config: Config, s: Sys, a: Action, s': Sys, key: DocKey)
    requires Enabled(s, a) && s' == Apply(config, s, a) && Written(s.history, key)
    ensures Written(s'.history, key)
  {
    var e :| e in s.history && e.Acked? && e.key == key;
    assert s'.history == s.history || e in s'.history[..|s.history|];
  }

  lemma UpdateWritten(config: Config, s: Sys, t: nat, s': Sys)
    requires Enabled(s, CommitUpdate(t)) && s' == Apply(config, s, CommitUpdate(t))
    ensures Written(s'.history, s.txs[t].key)
  {
    var e := s'.history[|s.history|];
    assert e in s'.history && e.Acked? && e.key == s.txs[t].key;
  }

  lemma StepLogged(config: Config, s: Sys, a: Action, s': Sys)
    requires Sound(config.codec, s) && Logged(s) && Enabled(s, a) && s' == Apply(config, s, a)
    ensures Logged(s')
  {
    forall id | id in s'.db.updates
      ensures Written(s'.history, s'.db.updates[id].key)
    {
      RowOrigin(config, s, a, id);
      if id in s.db.updates && s.db.updates[id] == s'.db.updates[id] {
        HistoryKept(config, s, a, s', s.db.updates[id].key);
      } else {
        UpdateWritten(config, s, a.t, s');
      }
    }
  }

  lemma {:induction false} RunLogged(config: Config, s: Sys, actions: seq<Action>, end: Sys)
    requires Sound(config.codec, s) && Logged(s) && Run(config, s, actions, end)
    ensures Sound(config.codec, end) && Logged(end)
    decreases |actions|
  {
    if actions != [] {
      StepSound(config, s, actions[0]);
      StepLogged(config, s, actions[0], Apply(config, s, actions[0]));
      RunLogged(config, Apply(config, s, actions[0]), actions[1..], end);
    }
  }

  /** Whatever a flush or the projector lists has been written: it may begin on it. */
  lemma ListedWasWritten(config: Config, start: Sys, actions: seq<Action>, s: Sys, key: DocKey)
    requires Initial(start) && Run(config, start, actions, s) && Pending(s.db, key) != {}
    ensures Written(s.history, key)
  {
    InitialSound(config.codec, start);
    RunLogged(config, start, actions, s);
    var id :| id in Pending(s.db, key);
  }

  // ---- a flush that misses an update ----

  /** Every other transaction gives up. */
  lemma {:induction false} OthersAbort(config: Config, s: Sys, others: set<nat>) returns (actions: seq<Action>)
    requires others <= s.txs.Keys
    ensures Run(config, s, actions, s.(txs := s.txs - others))
    decreases others
  {
    if others == {} {
      actions := [];
      assert s.txs - others == s.txs;
    } else {
      var u :| u in others;
      var s' := Apply(config, s, Abort(u));
      var rest := OthersAbort(config, s', others - {u});
      assert s'.txs - (others - {u}) == s.txs - others;
      actions := [Abort(u)] + rest;
      assert actions[1..] == rest;
    }
  }

  lemma ProjectionKeepsLive(config: Config, db: Db, key: DocKey)
    requires Consistent(config.codec, db) && Live(db, key)
    ensures forall k :: Live(Reconciled(config, db, key, Load(db, key), None), k) <==> Live(db, k)
  {
    ReconcileEffect(config, db, key, None);
  }

  /** One after the other, current documents that nobody works on are reconciled. */
  lemma {:induction false} FlushKeys(config: Config, s: Sys, t: nat, keys: set<DocKey>) returns (actions: seq<Action>, end: Sys)
    requires Sound(config.codec, s) && s.txs.Keys == {t} && s.txs[t].content.Shared?
    requires forall key :: key in keys ==>
      Live(s.db, key) && Written(s.history, key) && key.document !in s.txs[t].documents
    ensures Run(config, s, actions, end) && Sound(config.codec, end)
    ensures end.txs == s.txs && end.history == s.history
    ensures forall k :: Live(end.db, k) <==> Live(s.db, k)
    ensures forall key :: key in keys ==> Reconciles(config, s, actions, key)
    decreases keys
  {
    if keys == {} {
      return [], s;
    }
    var key :| key in keys;
    var first, flushed := ProjectorRuns(config, s, t + 1, key);
    RunSound(config, s, first, flushed);
    ProjectionKeepsLive(config, s.db, key);
    var rest;
    rest, end := FlushKeys(config, flushed, t, keys - {key});
    RunConcat(config, s, first, flushed, rest, end);
    actions := first + rest;
    forall k | k in keys
      ensures Reconciles(config, s, actions, k)
    {
      if k == key {
        ReconcilesSooner(config, s, first, rest, key);
      } else {
        ReconcilesLater(config, s, first, flushed, rest, k);
      }
    }
  }

  /** The current documents that a flush lists. */
  ghost function ListedKeys(db: Db, project: nat, target: nat): set<DocKey> {
    set id | id in db.updates && Outstanding(db, project, target, db.updates[id].key) && Live(db, db.updates[id].key) ::
      db.updates[id].key
  }

  lemma ListedKeysAre(db: Db, project: nat, target: nat, key: DocKey)
    ensures key in ListedKeys(db, project, target) <==> Outstanding(db, project, target, key) && Live(db, key)
  {
    if Outstanding(db, project, target, key) && Live(db, key) {
      var id :| id in Pending(db, key) && id <= target;
      assert id in db.updates && db.updates[id].key == key;
    }
  }

  /** A plain writer holds the lock of its own document and of no other. */
  lemma WriterApart(codec: Codec, s: Sys, t: nat, key: DocKey)
    requires Sound(codec, s) && t in s.txs && s.txs[t].role.Writer? && s.txs[t].drawn.Some?
    requires Live(s.db, key) && key != s.txs[t].key
    ensures s.txs[t].content.Shared? && Live(s.db, s.txs[t].key) && key.document !in s.txs[t].documents
  {
    assert TxFits(s.db, s.retired, s.txs[t]);
  }

  /** Alone in the system with a writer whose document it does not list, a flush reconciles all it
    listed; then the writer commits. */
  lemma FlushMisses(config: Config, alone: Sys, t: nat, project: nat, target: nat, keys: set<DocKey>)
      returns (actions: seq<Action>, end: Sys)
    requires Sound(config.codec, alone) && alone.txs.Keys == {t} && DrewUpTo(alone.txs[t], target)
    requires alone.txs[t].key.project == project && alone.txs[t].key !in keys
    requires forall key :: key in keys ==> Live(alone.db, key) && Written(alone.history, key)
    ensures Run(config, alone, actions, end) && !Covered(end.db, project, target)
    ensures forall k :: Live(end.db, k) <==> Live(alone.db, k)
    ensures forall key :: key in keys ==> Reconciles(config, alone, actions, key)
  {
    forall key | key in keys
      ensures key.document !in alone.txs[t].documents
    {
      WriterApart(config.codec, alone, t, key);
    }
    assert TxFits(alone.db, alone.retired, alone.txs[t]);
    var flushed;
    actions, flushed := FlushKeys(config, alone, t, keys);
    end := Apply(config, flushed, CommitUpdate(t));
    PlainUpdateIsUncovered(config, flushed, t);
    UpdateKeepsLive(config, flushed, t, end);
    RunExtends(config, alone, actions, flushed, CommitUpdate(t));
    forall key | key in keys
      ensures Reconciles(config, alone, actions + [CommitUpdate(t)], key)
    {
      ReconcilesSooner(config, alone, actions, [CommitUpdate(t)], key);
    }
    actions := actions + [CommitUpdate(t)];
  }

  lemma UpdateKeepsLive(config: Config, s: Sys, t: nat, s': Sys)
    requires Sound(config.codec, s) && Enabled(s, CommitUpdate(t)) && s' == Apply(config, s, CommitUpdate(t))
    ensures forall k :: Live(s'.db, k) <==> Live(s.db, k)
  {
    UpdateEffect(config, s, t);
  }

  /** A flush that goes by while an update up to its target is in flight on a document it did not
    list: everybody else gives up, the flush finishes, and the update commits after it. */
  lemma UnlistedIsMissed(config: Config, listed: Sys, t: nat, project: nat, target: nat)
      returns (during: seq<Action>, end: Sys)
    requires Sound(config.codec, listed) && Logged(listed) && t in listed.txs && DrewUpTo(listed.txs[t], target)
    requires listed.txs[t].key.project == project && !Outstanding(listed.db, project, target, listed.txs[t].key)
    ensures FlushRun(config, listed, during, end, project, target) && !Covered(end.db, project, target)
  {
    var others := listed.txs.Keys - {t};
    var alone := listed.(txs := listed.txs - others);
    var keys := ListedKeys(listed.db, project, target);
    forall key | key in keys
      ensures Live(alone.db, key) && Written(alone.history, key) && Outstanding(listed.db, project, target, key)
    {
      ListedKeysAre(listed.db, project, target, key);
    }
    var aborts := OthersAbort(config, listed, others);
    RunSound(config, listed, aborts, alone);
    var rest;
    rest, end := FlushMisses(config, alone, t, project, target, keys);
    RunConcat(config, listed, aborts, alone, rest, end);
    during := aborts + rest;
    forall key | Outstanding(listed.db, project, target, key) && Live(end.db, key)
      ensures Reconciles(config, listed, during, key)
    {
      ListedKeysAre(listed.db, project, target, key);
      ReconcilesLater(config, listed, aborts, alone, rest, key);
    }
  }

  /** The exact condition: a flush that reconciles all it listed covers everything up to its target,
    whatever else happens meanwhile, if and only if every plain update of the project that is in
    flight up to the target as the flush makes its list is on a listed document. */
  lemma FlushCoversExactly(config: Config, start: Sys, before: seq<Action>, listed: Sys, project: nat, target: nat)
    requires Initial(start) && Run(config, start, before, listed) && target < listed.db.nextId
    ensures FlushCovers(config, listed, project, target) <==> InFlightIsListed(listed, project, target)
  {
    InitialSound(config.codec, start);
    RunLogged(config, start, before, listed);
    if InFlightIsListed(listed, project, target) {
      forall during, end | FlushRun(config, listed, during, end, project, target)
        ensures Covered(end.db, project, target)
      {
        ListedFlushCovers(config, listed, during, end, project, target);
      }
    } else {
      var t :| t in listed.txs && listed.txs[t].key.project == project && DrewUpTo(listed.txs[t], target)
               && !Outstanding(listed.db, project, target, listed.txs[t].key);
      var during, end := UnlistedIsMissed(config, listed, t, project, target);
    }
  }
}
