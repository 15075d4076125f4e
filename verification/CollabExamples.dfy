/** A concrete run in which an ordinary flush misses an update in flight. */
module CollabExamples {
  import opened Wrappers
  import opened YjsState
  import opened CollabTables
  import opened CollabSystem
  import opened CollabInvariant
  import opened CollabCommits
  import opened CollabSteps
  import opened CollabFence
  import opened CollabBarrier
  import opened CollabRuns
  import opened CollabFlush
  import opened CollabFlushExact

  function PlainWriter(db: Db, key: DocKey, ops: Ops): Role
    requires key.project in db.access
  {
    Writer(Update, ops, db.access[key.project], None)
  }

  /** Two documents are bootstrapped; a writer draws identifier 1 for the slow one; an update of the
    fast one commits as 2, the target of a flush. The flush reconciles all it listed, and
    identifier 1 commits after it: below the target, and covered by nothing. */
  lemma FlushMissesUpdateInFlight(config: Config, start: Sys, slow: DocKey, fast: DocKey, ops: Ops)
      returns (before: seq<Action>, listed: Sys, during: seq<Action>, end: Sys)
    requires Initial(start) && Live(start.db, slow) && Live(start.db, fast)
    requires slow.project == fast.project && slow.document != fast.document && slow.project in start.db.access
    ensures Run(config, start, before, listed) && 2 in listed.db.updates && listed.db.nextId == 3
    ensures Outstanding(listed.db, fast.project, 2, fast)
    ensures FlushRun(config, listed, during, end, fast.project, 2) && !Covered(end.db, fast.project, 2)
  {
    var drawn;
    before, drawn := SlowDraws(config, start, slow, fast, ops);
    var commits;
    commits, listed := FastCommits(config, drawn, fast, ops, slow);
    RunConcat(config, start, before, drawn, commits, listed);
    before := before + commits;
    InitialSound(config.codec, start);
    RunLogged(config, start, before, listed);
    OnlyFastListed(listed, slow, fast);
    during, end := UnlistedIsMissed(config, listed, 1, fast.project, 2);
  }

  lemma SlowDraws(config: Config, start: Sys, slow: DocKey, fast: DocKey, ops: Ops)
      returns (actions: seq<Action>, drawn: Sys)
    requires Initial(start) && Live(start.db, slow) && Live(start.db, fast)
    requires slow.project == fast.project && slow.document != fast.document && slow.project in start.db.access
    ensures Run(config, start, actions, drawn) && drawn.txs.Keys == {1} && drawn.txs[1].content.Shared?
    ensures drawn.txs[1].key == slow && drawn.txs[1].documents == {slow.document} && DrewUpTo(drawn.txs[1], 2)
    ensures Live(drawn.db, fast) && fast.project in drawn.db.access && Booted(drawn.history, fast)
    ensures drawn.db.updates == map[] && drawn.db.nextId == 2 && Upto(drawn.db, fast) < 2
  {
    var booted;
    actions, booted := BothBoot(config, start, slow, fast);
    var role := PlainWriter(booted.db, slow, ops);
    drawn := Drawn(booted, 1, role, slow);
    var draws := WriterDraws(config, booted, 1, role, slow);
    RunConcat(config, start, actions, booted, draws, drawn);
    actions := actions + draws;
    SnapshotBelowSequence(config.codec, booted, fast);
  }

  lemma SnapshotBelowSequence(codec: Codec, s: Sys, key: DocKey)
    requires Sound(codec, s) && s.db.nextId > 0
    ensures Upto(s.db, key) < s.db.nextId
  {
  }

  lemma BothBoot(config: Config, start: Sys, slow: DocKey, fast: DocKey) returns (actions: seq<Action>, booted: Sys)
    requires Initial(start) && Live(start.db, slow) && Live(start.db, fast)
    ensures Run(config, start, actions, booted) && booted.txs == map[]
    ensures Booted(booted.history, slow) && Booted(booted.history, fast)
    ensures Live(booted.db, slow) && Live(booted.db, fast)
    ensures Sound(config.codec, booted)
    ensures booted.db.updates == map[] && booted.db.nextId == 1 && booted.db.access == start.db.access
  {
    InitialSound(config.codec, start);
    var half;
    actions, half := SocketBoots(config, start, 1, slow);
    var more;
    more, booted := SocketBoots(config, half, 1, fast);
    RunConcat(config, start, actions, half, more, booted);
    actions := actions + more;
  }

  lemma FastCommits(config: Config, drawn: Sys, fast: DocKey, ops: Ops, slow: DocKey)
      returns (actions: seq<Action>, listed: Sys)
    requires drawn.txs.Keys == {1} && drawn.txs[1].documents == {slow.document} && slow.document != fast.document
    requires drawn.txs[1].content.Shared? && Live(drawn.db, fast) && fast.project in drawn.db.access
    requires drawn.db.updates == map[] && drawn.db.nextId == 2 && Booted(drawn.history, fast)
    ensures Run(config, drawn, actions, listed)
    ensures listed.txs == drawn.txs && listed.db.updates.Keys == {2} && listed.db.updates[2].key == fast
    ensures listed.db == drawn.db.(updates := listed.db.updates, nextId := 3)
  {
    var role := PlainWriter(drawn.db, fast, ops);
    actions := WriterDraws(config, drawn, 2, role, fast);
    var ready := Drawn(drawn, 2, role, fast);
    listed := Apply(config, ready, CommitUpdate(2));
    assert listed.txs == drawn.txs;
    RunExtends(config, drawn, actions, ready, CommitUpdate(2));
    actions := actions + [CommitUpdate(2)];
  }

  lemma OnlyFastListed(listed: Sys, slow: DocKey, fast: DocKey)
    requires listed.db.updates.Keys == {2} && listed.db.updates[2].key == fast
    requires slow != fast && Upto(listed.db, fast) < 2
    ensures Outstanding(listed.db, fast.project, 2, fast) && !Outstanding(listed.db, fast.project, 2, slow)
  {
    assert 2 in Pending(listed.db, fast);
  }
}
