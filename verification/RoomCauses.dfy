/** Why sockets leave, and that one which nobody disturbs is admitted and stays
  (backend/src/collaboration/websocket.rs). */
module RoomCauses {
  import opened Wrappers
  import opened Rooms
  import opened RoomRuns
  import opened RoomProofs

  // ---- no socket leaves without cause ----

  /** The four kinds of events that end a stream. */
  predicate EndsStream(kind: EventKind) {
    kind == AccessChanged || kind == ProjectReplaced || kind == DocumentChanged || kind == ServerError(true)
  }

  /** What the socket looks at next, after subscribing, differs from what it captured before. */
  predicate Differs(s: RoomSys, t: nat)
    requires t in s.tasks
  {
    var task := s.tasks[t];
    var project := task.key.project;
    && project in s.perms && project in s.content && project in s.access
    && ((task.stage == Subscribed && !(task.user in s.perms[project] && s.perms[project][task.user].read))
        || (task.stage == RecheckedRead
            && task.write != (task.user in s.perms[project] && s.perms[project][task.user].write))
        || (task.stage == RecheckedPrincipal && task.content != s.content[project])
        || (task.stage == RecheckedContent && task.access != s.access[project]))
  }

  /** The socket reads a lag or an event that ends its stream. */
  predicate ReadsTheEnd(s: RoomSys, t: nat)
    requires t in s.tasks
  {
    && s.tasks[t].stage == Admitted && t in s.rooms.inboxes
    && (s.rooms.inboxes[t].lagged
        || (s.rooms.inboxes[t].queue != [] && EndsStream(s.rooms.inboxes[t].queue[0].kind)))
  }

  /** The step of `t` with which it stops listening. */
  predicate Cause(s: RoomSys, a: Action, t: nat) {
    t in s.tasks && (a == Quit(t) || (a == Advance(t) && (ReadsTheEnd(s, t) || Differs(s, t))))
  }

  predicate IsListening(s: RoomSys, t: nat) {
    t in s.tasks && Listening(s.tasks[t].stage)
  }

  lemma AdvanceNeedsCause(s: RoomSys, t: nat, s': RoomSys)
    requires CanAdvance(s, t) && IsListening(s, t) && s' == Advanced(s, t)
    ensures !IsListening(s', t) <==> Cause(s, Advance(t), t)
  {
    if s.tasks[t].stage.Admitted? {
      ReadNeedsCause(s, t, s');
    } else {
      RecheckNeedsCause(s, t, s');
    }
  }

  lemma ReadNeedsCause(s: RoomSys, t: nat, s': RoomSys)
    requires CanAdvance(s, t) && s.tasks[t].stage.Admitted? && s' == Advanced(s, t)
    ensures !IsListening(s', t) <==> ReadsTheEnd(s, t)
    ensures !Differs(s, t)
  {
  }

  lemma RecheckNeedsCause(s: RoomSys, t: nat, s': RoomSys)
    requires CanAdvance(s, t) && IsListening(s, t) && !s.tasks[t].stage.Admitted? && s' == Advanced(s, t)
    ensures !IsListening(s', t) <==> Differs(s, t)
  {
  }

  /** One step: whoever stops listening has a cause. */
  lemma StepNeedsCause(s: RoomSys, a: Action, s': RoomSys, t: nat)
    requires Enabled(s, a) && s' == Apply(s, a) && IsListening(s, t)
    ensures !IsListening(s', t) <==> Cause(s, a, t)
  {
    if a.Advance? {
      if a.t == t {
        AdvanceNeedsCause(s, t, s');
      } else {
        OtherSocketStep(s, a.t, t);
      }
    }
  }

  /** Somewhere along the run the socket makes a step with a cause to leave. */
  ghost predicate CausedWithin(s: RoomSys, actions: seq<Action>, t: nat)
    decreases |actions|
  {
    && actions != [] && Enabled(s, actions[0])
    && (Cause(s, actions[0], t) || CausedWithin(Apply(s, actions[0]), actions[1..], t))
  }

  /** Over every run, a socket that listened and has stopped has quit, read a lag or one of the four
    events that end a stream, or found an epoch or permission that was not the one it captured. */
  lemma {:induction false} NobodyLeavesWithoutCause(s: RoomSys, actions: seq<Action>, end: RoomSys, t: nat)
    requires Run(s, actions, end) && IsListening(s, t) && !IsListening(end, t)
    ensures CausedWithin(s, actions, t)
    decreases |actions|
  {
    var s' := Apply(s, actions[0]);
    StepNeedsCause(s, actions[0], s', t);
    if !Cause(s, actions[0], t) {
      NobodyLeavesWithoutCause(s', actions[1..], end, t);
    }
  }

  // ---- an undisturbed socket ----

  lemma {:induction false} RunsOn(start: RoomSys, first: seq<Action>, s: RoomSys, then_: seq<Action>, end: RoomSys)
    requires Run(start, first, s) && Run(s, then_, end)
    ensures Run(start, first + then_, end)
    decreases |first|
  {
    if first == [] {
      assert first + then_ == then_;
    } else {
      assert (first + then_)[1..] == first[1..] + then_;
      RunsOn(Apply(start, first[0]), first[1..], s, then_, end);
    }
  }

  lemma OneStep(s: RoomSys, a: Action, s': RoomSys)
    requires Enabled(s, a) && s' == Apply(s, a)
    ensures Run(s, [a], s')
  {
    assert [a][1..] == [] && Run(s', [], s');
  }

  lemma FourSteps(s: RoomSys, t: nat, s1: RoomSys, s2: RoomSys, s3: RoomSys, s4: RoomSys)
    requires CanAdvance(s, t) && s1 == Advanced(s, t) && CanAdvance(s1, t) && s2 == Advanced(s1, t)
    requires CanAdvance(s2, t) && s3 == Advanced(s2, t) && CanAdvance(s3, t) && s4 == Advanced(s3, t)
    ensures Run(s, [Advance(t), Advance(t)] + [Advance(t), Advance(t)], s4)
  {
    OneStep(s, Advance(t), s1);
    OneStep(s1, Advance(t), s2);
    OneStep(s2, Advance(t), s3);
    OneStep(s3, Advance(t), s4);
    RunsOn(s, [Advance(t)], s1, [Advance(t)], s2);
    RunsOn(s2, [Advance(t)], s3, [Advance(t)], s4);
    assert [Advance(t)] + [Advance(t)] == [Advance(t), Advance(t)];
    RunsOn(s, [Advance(t), Advance(t)], s2, [Advance(t), Advance(t)], s4);
  }

  /** A socket that has captured the state in force. */
  predicate CapturedNow(s: RoomSys, task: Task, key: RoomKey, user: nat)
    requires key.project in s.access && key.project in s.content && key.project in s.perms
  {
    && task.key == key && task.user == user && task.write == PermOf(s.perms[key.project], user).write
    && task.content == s.content[key.project] && task.access == s.access[key.project]
  }

  lemma Captures(s: RoomSys, t: nat, key: RoomKey, user: nat) returns (actions: seq<Action>, s': RoomSys)
    requires t !in s.tasks && key.project in s.access && key.project in s.content && key.project in s.perms
    requires PermOf(s.perms[key.project], user).read
    ensures Run(s, actions, s') && t in s'.tasks && s' == At(s, t, s'.tasks[t])
    ensures s'.tasks[t].stage == Captured && CapturedNow(s, s'.tasks[t], key, user)
  {
    var s0 := Apply(s, Connect(t, key, user));
    var s1 := Advanced(s0, t);
    var s2 := Advanced(s1, t);
    var s3 := Advanced(s2, t);
    s' := Advanced(s3, t);
    OneStep(s, Connect(t, key, user), s0);
    FourSteps(s0, t, s1, s2, s3, s');
    actions := [Connect(t, key, user)] + ([Advance(t), Advance(t)] + [Advance(t), Advance(t)]);
    RunsOn(s, [Connect(t, key, user)], s0, [Advance(t), Advance(t)] + [Advance(t), Advance(t)], s');
  }

  /** On the channel, with nothing in the inbox, and the epochs and permissions as they were. */
  predicate JoinedFrom(s: RoomSys, s': RoomSys, t: nat, key: RoomKey, user: nat, stage: Stage) {
    && t in s'.tasks && s'.tasks[t].stage == stage && t in s'.rooms.inboxes
    && s'.rooms.inboxes[t] == Inbox(s'.tasks[t].channel, [], false)
    && s'.access == s.access && s'.content == s.content && s'.perms == s.perms
    && key.project in s.access && key.project in s.content && key.project in s.perms
    && CapturedNow(s, s'.tasks[t], key, user)
  }

  lemma Joins(s: RoomSys, t: nat, key: RoomKey, user: nat) returns (actions: seq<Action>, s': RoomSys)
    requires t in s.tasks && s.tasks[t].stage == Captured
    requires key.project in s.access && key.project in s.content && key.project in s.perms
    requires CapturedNow(s, s.tasks[t], key, user)
    ensures Run(s, actions, s') && JoinedFrom(s, s', t, key, user, Subscribed)
  {
    var next := Advanced(s, t);
    OneStep(s, Advance(t), next);
    if key in s.rooms.channels {
      return [Advance(t)], next;
    }
    s' := Advanced(next, t);
    OneStep(next, Advance(t), s');
    RunsOn(s, [Advance(t)], next, [Advance(t)], s');
    actions := [Advance(t)] + [Advance(t)];
  }

  lemma RechecksOnce(s: RoomSys, t: nat, key: RoomKey, user: nat, stage: Stage, stage': Stage)
    requires JoinedFrom(s, s, t, key, user, stage) && PermOf(s.perms[key.project], user).read
    requires (stage == Subscribed && stage' == RecheckedRead) || (stage == RecheckedRead && stage' == RecheckedPrincipal)
             || (stage == RecheckedPrincipal && stage' == RecheckedContent)
             || (stage == RecheckedContent && stage' == Admitted)
    ensures CanAdvance(s, t) && Advanced(s, t) == At(s, t, s.tasks[t].(stage := stage'))
    ensures JoinedFrom(s, Advanced(s, t), t, key, user, stage') && JoinedFrom(Advanced(s, t), Advanced(s, t), t, key, user, stage')
  {
  }

  lemma Rechecks(s: RoomSys, t: nat, key: RoomKey, user: nat) returns (actions: seq<Action>, s': RoomSys)
    requires JoinedFrom(s, s, t, key, user, Subscribed) && PermOf(s.perms[key.project], user).read
    ensures Run(s, actions, s') && JoinedFrom(s, s', t, key, user, Admitted)
  {
    RechecksOnce(s, t, key, user, Subscribed, RecheckedRead);
    var s1 := Advanced(s, t);
    RechecksOnce(s1, t, key, user, RecheckedRead, RecheckedPrincipal);
    var s2 := Advanced(s1, t);
    RechecksOnce(s2, t, key, user, RecheckedPrincipal, RecheckedContent);
    var s3 := Advanced(s2, t);
    RechecksOnce(s3, t, key, user, RecheckedContent, Admitted);
    s' := Advanced(s3, t);
    FourSteps(s, t, s1, s2, s3, s');
    actions := [Advance(t), Advance(t)] + [Advance(t), Advance(t)];
  }

  /** A connection of a user who may read, and whom nobody disturbs, is admitted with the permissions
    and epochs in force. */
  lemma UndisturbedIsAdmitted(start: RoomSys, before: seq<Action>, s: RoomSys, t: nat, key: RoomKey, user: nat)
      returns (actions: seq<Action>, s': RoomSys)
    requires Initial(start) && Run(start, before, s) && t !in s.tasks && key.project in s.access
    requires key.project in s.perms && user in s.perms[key.project] && s.perms[key.project][user].read
    ensures Run(s, actions, s') && JoinedFrom(s, s', t, key, user, Admitted)
  {
    ReachableInv(start, before, s);
    var captured;
    actions, captured := Captures(s, t, key, user);
    var joining, joined := Joins(captured, t, key, user);
    RunsOn(s, actions, captured, joining, joined);
    actions := actions + joining;
    var checking;
    checking, s' := Rechecks(joined, t, key, user);
    RunsOn(s, actions, joined, checking, s');
    actions := actions + checking;
  }

  /** An admitted socket reads whatever is merely relayed and stays. */
  lemma RelayedIsRead(s: RoomSys, t: nat, event: Event) returns (s': RoomSys)
    requires t in s.tasks && s.tasks[t].stage == Admitted && t in s.rooms.inboxes && !s.rooms.inboxes[t].lagged
    requires s.tasks[t].key.project in s.access && s.tasks[t].key.project in s.content && s.tasks[t].key.project in s.perms
    requires |s.rooms.inboxes[t].queue| > 0 && s.rooms.inboxes[t].queue[0] == event && !EndsStream(event.kind)
    ensures Enabled(s, Advance(t)) && s' == Apply(s, Advance(t))
    ensures s'.tasks == s.tasks && t in s'.rooms.inboxes
    ensures s'.rooms.inboxes[t] == Inbox(s.rooms.inboxes[t].channel, s.rooms.inboxes[t].queue[1..], false)
  {
    s' := Apply(s, Advance(t));
  }

  /** Without read permission a connection ends at the door, on no channel. */
  lemma NoReaderNoSocket(s: RoomSys, t: nat)
    requires CanAdvance(s, t) && s.tasks[t].stage == Connecting
    ensures Apply(s, Advance(t)).tasks[t].stage == SawRead
            <==> s.tasks[t].user in s.perms[s.tasks[t].key.project] && s.perms[s.tasks[t].key.project][s.tasks[t].user].read
    ensures Apply(s, Advance(t)).tasks[t].stage == SawRead || Apply(s, Advance(t)).tasks[t].stage == Done
    ensures Apply(s, Advance(t)).rooms == s.rooms
  {
  }

  // ---- what is sent arrives ----

  /** Admitted, with an empty inbox, on the channel mapped for its room. */
  predicate Waiting(s: RoomSys, t: nat) {
    && t in s.tasks && s.tasks[t].stage == Admitted && t in s.rooms.inboxes
    && s.rooms.inboxes[t] == Inbox(s.tasks[t].channel, [], false)
    && s.tasks[t].key in s.rooms.channels && s.rooms.channels[s.tasks[t].key] == s.tasks[t].channel
    && s.tasks[t].key.project in s.access && s.tasks[t].key.project in s.content && s.tasks[t].key.project in s.perms
  }

  /** What a socket of the room relays is read by the others, who stay; and any of them may quit. */
  lemma RelayReaches(s: RoomSys, u: nat, t: nat, event: Event) returns (s': RoomSys)
    requires Waiting(s, t) && event.kind == Relayed
    requires u in s.tasks && s.tasks[u].stage == Admitted && s.tasks[u].channel == s.tasks[t].channel
    ensures Enabled(s, Say(u, event)) && Apply(s, Say(u, event)).rooms.inboxes[t].queue == [event]
    ensures Run(s, [Say(u, event)] + [Advance(t)], s') && Waiting(s', t) && Enabled(s', Quit(t))
  {
    var said := Apply(s, Say(u, event));
    s' := Apply(said, Advance(t));
    OneStep(s, Say(u, event), said);
    OneStep(said, Advance(t), s');
    RunsOn(s, [Say(u, event)], said, [Advance(t)], s');
  }

  /** A request that changes access or replaces the content of the project goes on to the rooms it
    lists, and a socket that reads its event leaves. */
  lemma AdvanceReaches(s: RoomSys, m: nat, change: Action, t: nat) returns (s': RoomSys)
    requires Waiting(s, t) && m !in s.mutators
    requires change == ReplaceContent(m, s.tasks[t].key.project)
             || (change.ChangeAccess? && change.m == m && change.project == s.tasks[t].key.project)
    ensures Run(s, [change, ListRooms(m)] + [SendTo(m, (s.tasks[t].key, s.tasks[t].channel)), Advance(t)], s')
    ensures HasLeft(s', t)
  {
    var room := (s.tasks[t].key, s.tasks[t].channel);
    var changed := Apply(s, change);
    var listed := Apply(changed, ListRooms(m));
    RoomIsListed(s, m, change, t, changed, listed);
    s' := SentIsRead(listed, m, t);
    RunsOn(s, [change], changed, [ListRooms(m)], listed);
    assert [change] + [ListRooms(m)] == [change, ListRooms(m)];
    RunsOn(s, [change, ListRooms(m)], listed, [SendTo(m, room), Advance(t)], s');
  }

  lemma SentIsRead(s: RoomSys, m: nat, t: nat) returns (s': RoomSys)
    requires Waiting(s, t) && Enabled(s, SendTo(m, (s.tasks[t].key, s.tasks[t].channel)))
    requires s.mutators[m].kind == AccessChanged || s.mutators[m].kind == ProjectReplaced
    ensures Run(s, [SendTo(m, (s.tasks[t].key, s.tasks[t].channel)), Advance(t)], s') && HasLeft(s', t)
  {
    var room := (s.tasks[t].key, s.tasks[t].channel);
    var sent := Apply(s, SendTo(m, room));
    s' := Apply(sent, Advance(t));
    OneStep(s, SendTo(m, room), sent);
    OneStep(sent, Advance(t), s');
    RunsOn(s, [SendTo(m, room)], sent, [Advance(t)], s');
    assert [SendTo(m, room)] + [Advance(t)] == [SendTo(m, room), Advance(t)];
  }

  lemma RoomIsListed(s: RoomSys, m: nat, change: Action, t: nat, changed: RoomSys, listed: RoomSys)
    requires Waiting(s, t) && m !in s.mutators
    requires change == ReplaceContent(m, s.tasks[t].key.project)
             || (change.ChangeAccess? && change.m == m && change.project == s.tasks[t].key.project)
    requires Enabled(s, change) && changed == Apply(s, change)
    requires Enabled(changed, ListRooms(m)) && listed == Apply(changed, ListRooms(m))
    ensures Run(s, [change], changed) && Run(changed, [ListRooms(m)], listed)
    ensures Enabled(listed, SendTo(m, (s.tasks[t].key, s.tasks[t].channel)))
    ensures listed.mutators[m].kind == AccessChanged || listed.mutators[m].kind == ProjectReplaced
    ensures listed.rooms == s.rooms && listed.tasks == s.tasks && Waiting(listed, t)
  {
    OneStep(s, change, changed);
    OneStep(changed, ListRooms(m), listed);
    assert (s.tasks[t].key, s.tasks[t].channel) in ProjectRooms(s.rooms, s.tasks[t].key.project);
  }
}
