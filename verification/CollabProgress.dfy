/** Every transaction goes through when nobody is in its way, and what workspace requests leave
  (backend/src/collaboration/updates.rs, projection.rs, persistence.rs). */
module CollabProgress {
  import opened Wrappers
  import opened YjsState
  import opened CollabTables
  import opened CollabSystem
  import opened CollabInvariant
  import opened CollabCommits
  import opened CollabSteps
  import opened CollabFence
  import opened CollabRuns

  // ---- writers ----

  /** A current writer whose locks nobody else holds is acknowledged, plain or sync. */
  lemma WriterCommits(config: Config, s: Sys, t: nat, role: Role, key: DocKey) returns (actions: seq<Action>, end: Sys)
    requires t !in s.txs && Live(s.db, key) && NoExclusive(s, key.project, None) && Booted(s.history, key)
    requires forall u :: u in s.txs ==> key.document !in s.txs[u].documents
    requires role.Writer? && key.project in s.db.access && s.db.access[key.project] == role.access
    ensures Run(config, s, actions, end) && end.txs == s.txs
    ensures end.history == s.history + [Acked(key, role.access, s.db.nextId, role.ops)]
  {
    var drawn := Drawn(s, t, role, key);
    actions := WriterDraws(config, s, t, role, key);
    var more;
    more, end := DrawnCommits(config, s, t, role, key, drawn);
    RunConcat(config, s, actions, drawn, more, end);
    actions := actions + more;
  }

  lemma DrawnCommits(config: Config, s: Sys, t: nat, role: Role, key: DocKey, drawn: Sys)
      returns (actions: seq<Action>, end: Sys)
    requires t !in s.txs && drawn == Drawn(s, t, role, key) && role.Writer?
    ensures Run(config, drawn, actions, end) && end.txs == s.txs
    ensures end.history == s.history + [Acked(key, role.access, s.db.nextId, role.ops)]
  {
    assert Run(config, drawn, [], drawn);
    if role.kind.Update? {
      end := Apply(config, drawn, CommitUpdate(t));
      assert end.txs == s.txs;
      RunExtends(config, drawn, [], drawn, CommitUpdate(t));
      actions := [] + [CommitUpdate(t)];
    } else {
      var loaded := Apply(config, drawn, LoadState(t));
      end := Apply(config, loaded, CommitUpdate(t));
      assert end.txs == s.txs;
      RunExtends(config, drawn, [], drawn, LoadState(t));
      RunExtends(config, drawn, [] + [LoadState(t)], loaded, CommitUpdate(t));
      actions := [] + [LoadState(t)] + [CommitUpdate(t)];
    }
  }

  // ---- captures ----

  lemma {:induction false} CaptureLocks(config: Config, s: Sys, t: nat, key: DocKey, documents: seq<nat>)
      returns (actions: seq<Action>, end: Sys)
    requires s.txs.Keys == {t} && s.txs[t].role.Capturer? && s.txs[t].content.Exclusive?
    ensures Run(config, s, actions, end) && t in end.txs
    ensures end == s.(txs := s.txs[t := end.txs[t]])
    ensures end.txs[t] == s.txs[t].(documents := end.txs[t].documents) && forall d :: d in documents ==> d in end.txs[t].documents
    ensures s.txs[t].documents <= end.txs[t].documents
    decreases |documents|
  {
    if documents == [] {
      assert s == s.(txs := s.txs[t := s.txs[t]]);
      return [], s;
    }
    var next := Apply(config, s, LockDocument(t, documents[0]));
    var rest;
    rest, end := CaptureLocks(config, next, t, key, documents[1..]);
    actions := [LockDocument(t, documents[0])] + rest;
    assert actions[1..] == rest;
    assert forall d :: d in documents ==> d == documents[0] || d in documents[1..];
  }

  function DocumentsIn(keys: seq<DocKey>): (documents: seq<nat>)
    ensures |documents| == |keys| && forall i :: 0 <= i < |keys| ==> documents[i] == keys[i].document
  {
    seq(|keys|, i requires 0 <= i < |keys| => keys[i].document)
  }

  /** With nobody else at work, a capture takes its locks, flushes what is pending and commits. */
  lemma CaptureCommits(config: Config, s: Sys, t: nat, key: DocKey, keys: seq<DocKey>)
      returns (actions: seq<Action>, end: Sys)
    requires s.txs == map[] && key.project in s.db.content && PendingList(s.db, key.project, keys)
    ensures Run(config, s, actions, end) && end == s.(db := Flushed(config, s.db, keys))
  {
    var begun := Apply(config, s, Begin(t, Capturer, key));
    var held := Apply(config, begun, LockContent(t));
    RunExtends(config, s, [], s, Begin(t, Capturer, key));
    RunExtends(config, s, [Begin(t, Capturer, key)], begun, LockContent(t));
    assert [] + [Begin(t, Capturer, key)] == [Begin(t, Capturer, key)];
    actions := [Begin(t, Capturer, key)] + [LockContent(t)];
    var locks, locked := CaptureLocks(config, held, t, key, DocumentsIn(keys));
    RunConcat(config, s, actions, held, locks, locked);
    actions := actions + locks;
    forall k | k in keys
      ensures k.document in locked.txs[t].documents
    {
      var i :| 0 <= i < |keys| && keys[i] == k;
      assert DocumentsIn(keys)[i] in DocumentsIn(keys);
    }
    end := Apply(config, locked, CommitCapture(t, keys));
    assert end.txs == map[];
    RunExtends(config, s, actions, locked, CommitCapture(t, keys));
    actions := actions + [CommitCapture(t, keys)];
  }

  // ---- a document that moved on ----

  /** A projector that finds the document at another revision clears the rows of the one it was
    sent for. */
  lemma SupersededIsCleared(config: Config, s: Sys, t: nat, key: DocKey) returns (actions: seq<Action>, end: Sys)
    requires s.txs == map[] && Written(s.history, key) && Known(s, key.document)
    requires key.project in s.db.content && s.db.content[key.project] == key.epoch && !Matches(s.db, key)
    ensures Run(config, s, actions, end) && end.db == s.db.(updates := end.db.updates, snapshots := end.db.snapshots)
    ensures forall id :: id in end.db.updates <==>
      id in s.db.updates && !(s.db.updates[id].key.project == key.project
                              && s.db.updates[id].key.document == key.document
                              && s.db.updates[id].key.revision == key.revision)
    ensures forall slot :: slot in end.db.snapshots <==>
      slot in s.db.snapshots && slot != Slot(key.project, key.document, key.revision)
  {
    var none: set<nat> := {};
    assert none + {key.document} == {key.document};
    var begun := Apply(config, s, Begin(t, Projector, key));
    var content := Apply(config, begun, LockContent(t));
    var document := Apply(config, content, LockDocument(t, key.document));
    Three(config, s, Begin(t, Projector, key), begun, LockContent(t), content, LockDocument(t, key.document), document);
    actions := [Begin(t, Projector, key), LockContent(t), LockDocument(t, key.document)];
    var more;
    more, end := HeldIsCleared(config, document, t, key);
    RunConcat(config, s, actions, document, more, end);
    actions := actions + more;
  }

  lemma HeldIsCleared(config: Config, s: Sys, t: nat, key: DocKey) returns (actions: seq<Action>, end: Sys)
    requires t in s.txs && s.txs[t] == Projecting(key, Load(s.db, key)).(rowHeld := false, loaded := None)
    requires !Matches(s.db, key)
    ensures Run(config, s, actions, end) && end.db == ClearRevision(s.db, key)
  {
    var loaded := Apply(config, s, LoadState(t));
    end := Apply(config, loaded, CommitSuperseded(t));
    assert Run(config, s, [], s);
    RunExtends(config, s, [], s, LoadState(t));
    RunExtends(config, s, [] + [LoadState(t)], loaded, CommitSuperseded(t));
    actions := [] + [LoadState(t)] + [CommitSuperseded(t)];
  }

  // ---- workspace requests ----

  /** With nobody at work a project's content is replaced: the next epoch, exactly the new documents,
    and no collaboration state of the project. */
  lemma ReplaceGoes(config: Config, s: Sys, project: nat, texts: map<nat, string>)
    requires s.txs == map[] && project in s.db.content && forall d :: d in texts ==> !Known(s, d)
    ensures Enabled(s, Replace(project, texts))
    ensures var db' := Apply(config, s, Replace(project, texts)).db;
      && db'.content == s.db.content[project := s.db.content[project] + 1] && db'.access == s.db.access
      && (forall d :: d in db'.docs && db'.docs[d].project == project ==> d in texts && db'.docs[d] == Doc(project, 0, texts[d]))
      && (forall d :: d in texts ==> d in db'.docs && db'.docs[d] == Doc(project, 0, texts[d]))
      && (forall id :: id in db'.updates <==> id in s.db.updates && s.db.updates[id].key.project != project)
      && (forall slot :: slot in db'.snapshots <==> slot in s.db.snapshots && slot.project != project)
  {
  }

  /** A rewritten document is at the next revision with the new text, and keeps its old rows. */
  lemma RewriteGoes(config: Config, s: Sys, document: nat, text: string)
    requires s.txs == map[] && document in s.db.docs
    ensures Enabled(s, Rewrite(document, text))
    ensures Apply(config, s, Rewrite(document, text)).db
            == s.db.(docs := s.db.docs[document := Doc(s.db.docs[document].project, s.db.docs[document].revision + 1, text)])
  {
  }

  lemma CreateGoes(config: Config, s: Sys, project: nat, document: nat, text: string)
    requires s.txs == map[] && project in s.db.content && !Known(s, document)
    ensures Enabled(s, Create(project, document, text))
    ensures Apply(config, s, Create(project, document, text)).db == s.db.(docs := s.db.docs[document := Doc(project, 0, text)])
  {
  }

  /** A deleted document takes all its rows and snapshots with it, and nobody else's. */
  lemma DeleteGoes(config: Config, s: Sys, document: nat)
    requires s.txs == map[] && document in s.db.docs
    ensures Enabled(s, Delete(document))
    ensures var db' := Apply(config, s, Delete(document)).db;
      && db'.docs == s.db.docs - {document}
      && (forall id :: id in db'.updates <==> id in s.db.updates && s.db.updates[id].key.document != document)
      && (forall slot :: slot in db'.snapshots <==> slot in s.db.snapshots && slot.document != document)
  {
  }

  lemma AdvanceGoes(config: Config, s: Sys, project: nat)
    requires s.txs == map[] && project in s.db.access
    ensures Enabled(s, AdvanceAccess(project))
    ensures Apply(config, s, AdvanceAccess(project)).db
            == s.db.(access := s.db.access[project := s.db.access[project] + 1])
  {
  }
}
