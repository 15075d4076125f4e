/** Every interleaving keeps the room invariant, and what follows from it. */
module RoomProofs {
  import opened Wrappers
  import opened Rooms
  import opened RoomRuns

  // ---- steps of one socket ----

  /** The step concerns socket `t` alone: everybody else keeps their task, inbox and room. */
  ghost predicate OthersUntouched(s: RoomSys, s': RoomSys, t: nat) {
    && s'.access == s.access && s'.content == s.content && s'.perms == s.perms
    && s'.inForce == s.inForce && s'.mutators == s.mutators
    && t in s'.tasks && s'.tasks == s.tasks[t := s'.tasks[t]]
    && (forall u :: u != t ==> (u in s'.rooms.inboxes <==> u in s.rooms.inboxes))
    && (forall u :: u != t && u in s.rooms.inboxes ==> s'.rooms.inboxes[u] == s.rooms.inboxes[u])
    && s.rooms.nextChannel <= s'.rooms.nextChannel
  }

  lemma OtherSeen(s: RoomSys, s': RoomSys, t: nat, u: nat)
    requires OthersUntouched(s, s', t) && u in s.tasks && u != t && SeenFits(s, u)
    ensures SeenFits(s', u)
  {
    assert Warned(s, u) ==> Warned(s', u);
  }

  lemma OtherPlaced(s: RoomSys, s': RoomSys, t: nat, u: nat)
    requires OthersUntouched(s, s', t) && u in s.tasks && u != t && PlaceFits(s, u)
    requires WellFormed(s.rooms) && WellFormed(s'.rooms) && RoomsContinue(s.rooms, s'.rooms)
    ensures PlaceFits(s', u)
  {
    if u in s'.rooms.inboxes {
      assert Mapped(s'.rooms, s'.rooms.inboxes[u].channel);
      var key :| key in s'.rooms.channels && s'.rooms.channels[key] == s'.rooms.inboxes[u].channel;
    }
  }

  /** A mapped channel is that of the same room as before, or new. */
  ghost predicate RoomsContinue(r: RoomMap, r': RoomMap) {
    forall key :: key in r'.channels ==>
      (key in r.channels && r'.channels[key] == r.channels[key]) || r'.channels[key] >= r.nextChannel
  }

  lemma SocketStep(s: RoomSys, s': RoomSys, t: nat)
    requires Inv(s) && OthersUntouched(s, s', t) && WellFormed(s'.rooms) && RoomsContinue(s.rooms, s'.rooms)
    requires SeenFits(s', t) && PlaceFits(s', t)
    requires forall key {:trigger Kept(s', key)} :: key in s'.rooms.channels ==> Kept(s', key)
    ensures Inv(s')
  {
    forall u | u in s'.tasks
      ensures SeenFits(s', u) && PlaceFits(s', u)
    {
      if u != t {
        assert SeenFits(s, u) && PlaceFits(s, u);
        OtherSeen(s, s', t, u);
        OtherPlaced(s, s', t, u);
      }
    }
  }

  lemma KeptStays(s: RoomSys, s': RoomSys, key: RoomKey, t: nat)
    requires key in s.rooms.channels && Kept(s, key)
    requires key in s'.rooms.channels && s'.rooms.channels[key] == s.rooms.channels[key]
    requires s.tasks.Keys <= s'.tasks.Keys && forall u :: u in s.tasks && u != t ==> s'.tasks[u] == s.tasks[u]
    requires t in s.tasks && KeepsRoom(s.tasks[t], key, s.rooms.channels[key]) ==>
      KeepsRoom(s'.tasks[t], key, s.rooms.channels[key])
    ensures Kept(s', key)
  {
    var u :| u in s.tasks && KeepsRoom(s.tasks[u], key, s.rooms.channels[key]);
    assert KeepsRoom(s'.tasks[u], key, s'.rooms.channels[key]);
  }

  /** A step that leaves the rooms alone and keeps the socket on the same side of them. */
  lemma LocalInv(s: RoomSys, t: nat, task: Task)
    requires Inv(s) && (t in s.tasks ==> task.key == s.tasks[t].key && task.channel == s.tasks[t].channel)
    requires Listening(task.stage) <==> t in s.rooms.inboxes
    requires Attached(task.stage) <==> t in s.tasks && Attached(s.tasks[t].stage)
    requires SeenFits(At(s, t, task), t)
    ensures Inv(At(s, t, task))
  {
    var s' := At(s, t, task);
    assert t in s.tasks ==> PlaceFits(s, t);
    forall key | key in s'.rooms.channels
      ensures Kept(s', key)
    {
      assert Kept(s, key);
      KeptStays(s, s', key, t);
    }
    SocketStep(s, s', t);
  }

  predicate Early(stage: Stage) {
    stage.Connecting? || stage.SawRead? || stage.SawPrincipal? || stage.SawContent?
  }

  lemma EarlySeen(s: RoomSys, t: nat)
    requires CanAdvance(s, t) && Early(s.tasks[t].stage) && SeenFits(s, t)
    ensures var s' := Advanced(s, t);
            && s' == At(s, t, s'.tasks[t]) && SeenFits(s', t)
            && s'.tasks[t].key == s.tasks[t].key && s'.tasks[t].channel == s.tasks[t].channel
            && !Attached(s'.tasks[t].stage)
  {
  }

  lemma EarlyInv(s: RoomSys, t: nat)
    requires Inv(s) && CanAdvance(s, t) && Early(s.tasks[t].stage)
    ensures Inv(Advanced(s, t))
  {
    assert SeenFits(s, t) && PlaceFits(s, t);
    EarlySeen(s, t);
    LocalInv(s, t, Advanced(s, t).tasks[t]);
  }

  // ---- revalidation ----

  lemma RecheckPrincipalInv(s: RoomSys, t: nat)
    requires Inv(s) && CanAdvance(s, t) && (s.tasks[t].stage.Subscribed? || s.tasks[t].stage.RecheckedRead?)
    ensures Inv(Advanced(s, t))
  {
    assert SeenFits(s, t) && PlaceFits(s, t);
    if Advanced(s, t).tasks[t].stage.Leaving? {
      LeftInv(s, t);
    } else {
      LocalInv(s, t, Advanced(s, t).tasks[t]);
    }
  }

  lemma RecheckContentInv(s: RoomSys, t: nat)
    requires Inv(s) && CanAdvance(s, t) && s.tasks[t].stage.RecheckedPrincipal?
    ensures Inv(Advanced(s, t))
  {
    assert SeenFits(s, t) && PlaceFits(s, t);
    if Advanced(s, t).tasks[t].stage.Leaving? {
      LeftInv(s, t);
    } else {
      LocalInv(s, t, Advanced(s, t).tasks[t]);
    }
  }

  lemma AdmitInv(s: RoomSys, t: nat)
    requires Inv(s) && CanAdvance(s, t) && s.tasks[t].stage.RecheckedContent?
    ensures Inv(Advanced(s, t))
  {
    assert SeenFits(s, t) && PlaceFits(s, t);
    if Advanced(s, t).tasks[t].stage.Leaving? {
      LeftInv(s, t);
    } else {
      assert Warned(s, t) ==> Warned(Advanced(s, t), t);
      LocalInv(s, t, Advanced(s, t).tasks[t]);
    }
  }

  // ---- joining and leaving ----

  lemma JoinedInv(s: RoomSys, t: nat)
    requires Inv(s) && t in s.tasks && HasCaptured(s.tasks[t].stage) && !Listening(s.tasks[t].stage)
    ensures t !in s.rooms.inboxes
    ensures Inv(InRoom(s, t, Rooms.Subscribed(s.rooms, s.tasks[t].key, t)))
  {
    var task := s.tasks[t];
    assert SeenFits(s, t) && PlaceFits(s, t);
    SubscribedWellFormed(s.rooms, task.key, t);
    var s' := InRoom(s, t, Rooms.Subscribed(s.rooms, task.key, t));
    forall key | key in s'.rooms.channels
      ensures Kept(s', key)
    {
      JoinedKept(s, s', t, key);
    }
    SocketStep(s, s', t);
  }

  lemma JoinedKept(s: RoomSys, s': RoomSys, t: nat, key: RoomKey)
    requires Inv(s) && t in s.tasks && HasCaptured(s.tasks[t].stage) && !Listening(s.tasks[t].stage)
    requires t !in s.rooms.inboxes && s' == InRoom(s, t, Rooms.Subscribed(s.rooms, s.tasks[t].key, t))
    requires key in s'.rooms.channels
    ensures Kept(s', key)
  {
    if key == s.tasks[t].key {
      assert KeepsRoom(s'.tasks[t], key, s'.rooms.channels[key]);
    } else {
      assert Kept(s, key);
      KeptStays(s, s', key, t);
    }
  }

  lemma OpeningInv(s: RoomSys, t: nat)
    requires Inv(s) && CanAdvance(s, t) && s.tasks[t].stage.Captured?
    ensures Inv(At(s, t, s.tasks[t].(stage := OpeningRoom)))
  {
    assert SeenFits(s, t) && PlaceFits(s, t);
    LocalInv(s, t, s.tasks[t].(stage := OpeningRoom));
  }

  lemma JoinInv(s: RoomSys, t: nat)
    requires Inv(s) && CanAdvance(s, t) && (s.tasks[t].stage.Captured? || s.tasks[t].stage.OpeningRoom?)
    ensures Inv(Advanced(s, t))
  {
    JoinedInv(s, t);
    if s.tasks[t].stage.Captured? {
      OpeningInv(s, t);
    }
  }

  lemma LeftInv(s: RoomSys, t: nat)
    requires Inv(s) && t in s.tasks && Listening(s.tasks[t].stage)
    ensures Inv(Left(s, t))
  {
    var s' := Left(s, t);
    assert SeenFits(s, t) && PlaceFits(s, t);
    SameChannelsWellFormed(s.rooms, Dropped(s.rooms, t));
    forall key | key in s'.rooms.channels
      ensures Kept(s', key)
    {
      assert Kept(s, key);
      KeptStays(s, s', key, t);
    }
    SocketStep(s, s', t);
  }

  /** A receiver on a room's channel belongs to a socket of that room. */
  lemma ListenerKeeps(s: RoomSys, key: RoomKey, i: nat)
    requires Inv(s) && key in s.rooms.channels && i in s.rooms.inboxes
    requires s.rooms.inboxes[i].channel == s.rooms.channels[key]
    ensures i in s.tasks && Listening(s.tasks[i].stage) && KeepsRoom(s.tasks[i], key, s.rooms.channels[key])
  {
    assert i in s.tasks && PlaceFits(s, i);
  }

  /** When a leaving socket sees a listener on its channel, the duty passes to that listener. */
  lemma DutyPasses(s: RoomSys, s': RoomSys, t: nat, key: RoomKey)
    requires Inv(s) && key in s.rooms.channels && t in s.tasks && !Listening(s.tasks[t].stage)
    requires key in s'.rooms.channels && s'.rooms.channels[key] == s.rooms.channels[key]
    requires s'.tasks == s.tasks[t := s.tasks[t].(stage := Done)]
    requires KeepsRoom(s.tasks[t], key, s.rooms.channels[key]) ==> !Idle(s.rooms, s.tasks[t].channel)
    ensures Kept(s', key)
  {
    if KeepsRoom(s.tasks[t], key, s.rooms.channels[key]) {
      var i :| i in s.rooms.inboxes && s.rooms.inboxes[i].channel == s.tasks[t].channel;
      ListenerKeeps(s, key, i);
      assert i != t && KeepsRoom(s'.tasks[i], key, s'.rooms.channels[key]);
    } else {
      assert Kept(s, key);
      KeptStays(s, s', key, t);
    }
  }

  /** The unlocked look. */
  lemma LookInv(s: RoomSys, t: nat)
    requires Inv(s) && CanAdvance(s, t) && s.tasks[t].stage.Leaving?
    ensures Inv(Advanced(s, t))
  {
    var task := s.tasks[t];
    assert SeenFits(s, t) && PlaceFits(s, t);
    if Idle(s.rooms, task.channel) {
      LocalInv(s, t, task.(stage := SawIdle));
    } else {
      GoneInv(s, At(s, t, task.(stage := Done)), t);
    }
  }

  /** The locked removal: the room goes, or somebody has joined it meanwhile. */
  lemma RemoveInv(s: RoomSys, t: nat)
    requires Inv(s) && CanAdvance(s, t) && s.tasks[t].stage.SawIdle?
    ensures Inv(Advanced(s, t))
  {
    var task := s.tasks[t];
    assert SeenFits(s, t) && PlaceFits(s, t);
    RemovedWellFormed(s.rooms, task.key, task.channel);
    GoneInv(s, At(s, t, task.(stage := Done)).(rooms := Removed(s.rooms, task.key, task.channel)), t);
  }

  lemma GoneInv(s: RoomSys, s': RoomSys, t: nat)
    requires Inv(s) && t in s.tasks && Attached(s.tasks[t].stage) && !Listening(s.tasks[t].stage)
    requires s' == At(s, t, s.tasks[t].(stage := Done)).(rooms := s'.rooms)
    requires WellFormed(s'.rooms) && s'.rooms == s.rooms.(channels := s'.rooms.channels)
    requires forall key :: key in s'.rooms.channels ==>
      key in s.rooms.channels && s'.rooms.channels[key] == s.rooms.channels[key]
      && (KeepsRoom(s.tasks[t], key, s.rooms.channels[key]) ==> !Idle(s.rooms, s.tasks[t].channel))
    ensures Inv(s')
  {
    assert SeenFits(s, t) && PlaceFits(s, t);
    forall key | key in s'.rooms.channels
      ensures Kept(s', key)
    {
      DutyPasses(s, s', t, key);
    }
    SocketStep(s, s', t);
  }

  // ---- events ----

  /** Taking an event that does not close the socket leaves every closing one in place. */
  lemma ReadStillWarned(s: RoomSys, t: nat)
    requires CanAdvance(s, t) && s.tasks[t].stage.Admitted? && SeenFits(s, t) && PlaceFits(s, t)
    requires !s.rooms.inboxes[t].lagged && !Closes(s.rooms.inboxes[t].queue[0])
    ensures SeenFits(Forwarded(s, t), t) && PlaceFits(Forwarded(s, t), t)
  {
    var inbox := s.rooms.inboxes[t];
    var s' := Forwarded(s, t);
    assert forall e :: e in inbox.queue <==> e == inbox.queue[0] || e in inbox.queue[1..];
    assert Warned(s, t) ==> Warned(s', t);
  }

  lemma ReadInv(s: RoomSys, t: nat)
    requires Inv(s) && CanAdvance(s, t) && s.tasks[t].stage.Admitted?
    requires !s.rooms.inboxes[t].lagged && !Closes(s.rooms.inboxes[t].queue[0])
    ensures Inv(Forwarded(s, t))
  {
    var s' := Forwarded(s, t);
    assert SeenFits(s, t) && PlaceFits(s, t);
    ReadStillWarned(s, t);
    SameRoomsKept(s, s');
    SameChannelsWellFormed(s.rooms, s'.rooms);
    SocketStep(s, s', t);
  }

  lemma SameRoomsKept(s: RoomSys, s': RoomSys)
    requires Inv(s) && s'.rooms.channels == s.rooms.channels && s'.tasks == s.tasks
    ensures forall key {:trigger Kept(s', key)} :: key in s'.rooms.channels ==> Kept(s', key)
  {
    forall key | key in s'.rooms.channels
      ensures Kept(s', key)
    {
      assert Kept(s, key);
      var u :| u in s.tasks && KeepsRoom(s.tasks[u], key, s.rooms.channels[key]);
      assert KeepsRoom(s'.tasks[u], key, s'.rooms.channels[key]);
    }
  }

  /** A step that leaves tasks and room map alone and only changes epochs, inboxes or mutators. */
  lemma SharedStep(s: RoomSys, s': RoomSys)
    requires Inv(s) && EpochsFit(s') && s'.tasks == s.tasks && WellFormed(s'.rooms)
    requires s'.rooms.channels == s.rooms.channels && s'.rooms.nextChannel == s.rooms.nextChannel
    requires s'.rooms.inboxes.Keys == s.rooms.inboxes.Keys
    requires forall i :: i in s.rooms.inboxes ==> s'.rooms.inboxes[i].channel == s.rooms.inboxes[i].channel
    requires forall u {:trigger SeenFits(s', u)} :: u in s.tasks ==> SeenFits(s', u)
    ensures Inv(s')
  {
    forall u | u in s'.tasks
      ensures PlaceFits(s', u)
    {
      assert PlaceFits(s, u);
    }
    SameRoomsKept(s, s');
  }

  /** Nothing the socket relies on changed, and what would close it is still there. */
  lemma SeenStays(s: RoomSys, s': RoomSys, u: nat)
    requires u in s.tasks && s'.tasks == s.tasks && SeenFits(s, u)
    requires s'.access == s.access && s'.content == s.content && s'.perms == s.perms && s'.inForce == s.inForce
    requires Listening(s.tasks[u].stage) && Warned(s, u) ==> Warned(s', u)
    ensures SeenFits(s', u)
  {
  }

  lemma SayInv(s: RoomSys, t: nat, event: Event)
    requires Inv(s) && Enabled(s, Say(t, event))
    ensures Inv(Apply(s, Say(t, event)))
  {
    var s' := Apply(s, Say(t, event));
    SameChannelsWellFormed(s.rooms, s'.rooms);
    forall u | u in s'.tasks
      ensures SeenFits(s', u)
    {
      if u in s.rooms.inboxes {
        ClosingSurvives(s.rooms.inboxes[u], event);
      }
      assert Warned(s, u) ==> Warned(s', u);
      SeenStays(s, s', u);
    }
    SharedStep(s, s');
  }

  // ---- mutations and their broadcasts ----

  lemma OweStays(s: RoomSys, s': RoomSys, u: nat, m: nat)
    requires u in s.tasks && s'.tasks == s.tasks && m !in s.mutators && s'.rooms == s.rooms
    requires m in s'.mutators && s'.mutators == s.mutators[m := s'.mutators[m]]
    ensures Warned(s, u) ==> Warned(s', u)
  {
    if Warned(s, u) && exists n :: n in s.mutators && Owes(s.mutators[n], s.tasks[u]) {
      var n :| n in s.mutators && Owes(s.mutators[n], s.tasks[u]);
      assert Owes(s'.mutators[n], s'.tasks[u]);
    }
  }

  lemma AccessChangeSeen(s: RoomSys, m: nat, project: nat, perms: map<nat, Perm>, u: nat)
    requires EpochsFit(s) && u in s.tasks && SeenFits(s, u) && Enabled(s, ChangeAccess(m, project, perms))
    ensures SeenFits(Apply(s, ChangeAccess(m, project, perms)), u)
  {
    var s' := Apply(s, ChangeAccess(m, project, perms));
    OweStays(s, s', u, m);
    if s.tasks[u].key.project == project {
      assert Owes(s'.mutators[m], s'.tasks[u]);
    }
  }

  lemma AccessChangeEpochs(s: RoomSys, m: nat, project: nat, perms: map<nat, Perm>, s': RoomSys)
    requires EpochsFit(s) && project in s.access
    requires s'.access == s.access[project := s.access[project] + 1] && s'.perms == s.perms[project := perms]
    requires s'.content == s.content && s'.inForce == s.inForce[(project, s.access[project] + 1) := perms]
    requires s'.mutators == s.mutators[m := Mutator(project, AccessChanged, None)]
    ensures EpochsFit(s')
  {
    AccessChangeInForce(s, project, perms, s');
    MutatorCloses(s, m, project, s');
  }

  lemma MutatorCloses(s: RoomSys, m: nat, project: nat, s': RoomSys)
    requires forall n :: n in s.mutators ==> Closes(Event("", s.mutators[n].kind))
    requires s'.mutators == s.mutators[m := Mutator(project, AccessChanged, None)]
    ensures forall n :: n in s'.mutators ==> Closes(Event("", s'.mutators[n].kind))
  {
  }

  /** What was in force at an earlier epoch stays on record. */
  lemma AccessChangeInForce(s: RoomSys, project: nat, perms: map<nat, Perm>, s': RoomSys)
    requires EpochsFit(s) && project in s.access
    requires s'.access == s.access[project := s.access[project] + 1] && s'.perms == s.perms[project := perms]
    requires s'.inForce == s.inForce[(project, s.access[project] + 1) := perms]
    ensures forall p :: p in s'.access ==> (p, s'.access[p]) in s'.inForce && s'.inForce[(p, s'.access[p])] == s'.perms[p]
    ensures forall epoch :: epoch in s'.inForce ==> epoch.0 in s'.access && epoch.1 <= s'.access[epoch.0]
  {
  }

  lemma ChangeAccessInv(s: RoomSys, m: nat, project: nat, perms: map<nat, Perm>)
    requires Inv(s) && Enabled(s, ChangeAccess(m, project, perms))
    ensures Inv(Apply(s, ChangeAccess(m, project, perms)))
  {
    var s' := Apply(s, ChangeAccess(m, project, perms));
    forall u | u in s.tasks
      ensures SeenFits(s', u)
    {
      assert SeenFits(s, u);
      AccessChangeSeen(s, m, project, perms, u);
    }
    AccessChangeEpochs(s, m, project, perms, s');
    SharedStep(s, s');
  }

  lemma ReplacementSeen(s: RoomSys, m: nat, project: nat, u: nat)
    requires EpochsFit(s) && u in s.tasks && SeenFits(s, u) && Enabled(s, ReplaceContent(m, project))
    ensures SeenFits(Apply(s, ReplaceContent(m, project)), u)
  {
    var s' := Apply(s, ReplaceContent(m, project));
    OweStays(s, s', u, m);
    if s.tasks[u].key.project == project {
      assert Owes(s'.mutators[m], s'.tasks[u]);
    }
  }

  lemma ReplaceContentInv(s: RoomSys, m: nat, project: nat)
    requires Inv(s) && Enabled(s, ReplaceContent(m, project))
    ensures Inv(Apply(s, ReplaceContent(m, project)))
  {
    forall u | u in s.tasks
      ensures SeenFits(Apply(s, ReplaceContent(m, project)), u)
    {
      assert SeenFits(s, u);
      ReplacementSeen(s, m, project, u);
    }
    SharedStep(s, Apply(s, ReplaceContent(m, project)));
  }

  lemma ListRoomsInv(s: RoomSys, m: nat)
    requires Inv(s) && Enabled(s, ListRooms(m))
    ensures Inv(Apply(s, ListRooms(m)))
  {
    forall u | u in s.tasks
      ensures SeenFits(Apply(s, ListRooms(m)), u)
    {
      assert SeenFits(s, u) && PlaceFits(s, u);
      if Listening(s.tasks[u].stage) {
        ListedStillOwes(s, m, u);
      }
      SeenStays(s, Apply(s, ListRooms(m)), u);
    }
    SharedStep(s, Apply(s, ListRooms(m)));
  }

  /** The listing under the read lock finds the room of every listening socket of the project. */
  lemma ListedStillOwes(s: RoomSys, m: nat, u: nat)
    requires Enabled(s, ListRooms(m)) && u in s.tasks && PlaceFits(s, u) && Listening(s.tasks[u].stage)
    ensures Warned(s, u) ==> Warned(Apply(s, ListRooms(m)), u)
  {
    var s' := Apply(s, ListRooms(m));
    var task := s.tasks[u];
    if exists n :: n in s.mutators && Owes(s.mutators[n], task) {
      var n :| n in s.mutators && Owes(s.mutators[n], task);
      assert task.key.project == s.mutators[m].project ==>
        (task.key, s.rooms.channels[task.key]) in ProjectRooms(s.rooms, s.mutators[m].project);
      assert Owes(s'.mutators[n], s'.tasks[u]);
    }
  }

  lemma SendToInv(s: RoomSys, m: nat, room: (RoomKey, nat))
    requires Inv(s) && Enabled(s, SendTo(m, room))
    ensures Inv(Apply(s, SendTo(m, room)))
  {
    var s' := Apply(s, SendTo(m, room));
    SameChannelsWellFormed(s.rooms, s'.rooms);
    forall u | u in s.tasks
      ensures SeenFits(s', u)
    {
      assert SeenFits(s, u) && PlaceFits(s, u);
      if Listening(s.tasks[u].stage) {
        SentInsteadOfOwed(s, m, room, u);
      }
      SeenStays(s, s', u);
    }
    SharedStep(s, s');
  }

  /** What a broadcast no longer owes to a listening socket is in its inbox. */
  lemma SentInsteadOfOwed(s: RoomSys, m: nat, room: (RoomKey, nat), u: nat)
    requires EpochsFit(s) && WellFormed(s.rooms) && Enabled(s, SendTo(m, room))
    requires u in s.tasks && PlaceFits(s, u) && Listening(s.tasks[u].stage)
    ensures Warned(s, u) ==> Warned(Apply(s, SendTo(m, room)), u)
  {
    var s' := Apply(s, SendTo(m, room));
    var task := s.tasks[u];
    ClosingSurvives(s.rooms.inboxes[u], Event(room.0.doc, s.mutators[m].kind));
    if exists n :: n in s.mutators && Owes(s.mutators[n], task) {
      var n :| n in s.mutators && Owes(s.mutators[n], task);
      if !(n == m && room == (task.key, task.channel)) {
        assert Owes(s'.mutators[n], s'.tasks[u]);
      }
    }
  }

  // ---- every step ----

  lemma StepInv(s: RoomSys, a: Action)
    requires Inv(s) && Enabled(s, a)
    ensures Inv(Apply(s, a))
  {
    match a
    case Connect(t, key, user) => ConnectInv(s, t, key, user);
    case Advance(t) => AdvanceInv(s, t);
    case Quit(t) => QuitInv(s, t);
    case Say(t, event) => SayInv(s, t, event);
    case ChangeAccess(m, project, perms) => ChangeAccessInv(s, m, project, perms);
    case ReplaceContent(m, project) => ReplaceContentInv(s, m, project);
    case ListRooms(m) => ListRoomsInv(s, m);
    case SendTo(m, room) => SendToInv(s, m, room);
  }

  lemma ConnectInv(s: RoomSys, t: nat, key: RoomKey, user: nat)
    requires Inv(s) && Enabled(s, Connect(t, key, user))
    ensures Inv(Apply(s, Connect(t, key, user)))
  {
    LocalInv(s, t, Task(key, user, Connecting, false, 0, 0, 0));
  }

  lemma QuitInv(s: RoomSys, t: nat)
    requires Inv(s) && Enabled(s, Quit(t))
    ensures Inv(Apply(s, Quit(t)))
  {
    if Listening(s.tasks[t].stage) {
      LeftInv(s, t);
    } else {
      assert SeenFits(s, t) && PlaceFits(s, t);
      LocalInv(s, t, s.tasks[t].(stage := Done));
    }
  }

  lemma AdvanceInv(s: RoomSys, t: nat)
    requires Inv(s) && CanAdvance(s, t)
    ensures Inv(Advanced(s, t))
  {
    var stage := s.tasks[t].stage;
    if stage.Connecting? || stage.SawRead? || stage.SawPrincipal? || stage.SawContent? {
      EarlyInv(s, t);
    } else if stage.Captured? || stage.OpeningRoom? {
      JoinInv(s, t);
    } else if stage.Subscribed? || stage.RecheckedRead? {
      RecheckPrincipalInv(s, t);
    } else if stage.RecheckedPrincipal? {
      RecheckContentInv(s, t);
    } else if stage.RecheckedContent? {
      AdmitInv(s, t);
    } else if stage.Admitted? {
      if s.rooms.inboxes[t].lagged || Closes(s.rooms.inboxes[t].queue[0]) {
        LeftInv(s, t);
      } else {
        ReadInv(s, t);
      }
    } else if stage.Leaving? {
      LookInv(s, t);
    } else {
      RemoveInv(s, t);
    }
  }

  lemma {:induction false} RunInv(s: RoomSys, actions: seq<Action>, end: RoomSys)
    requires Inv(s) && Run(s, actions, end)
    ensures Inv(end)
    decreases |actions|
  {
    if actions != [] {
      StepInv(s, actions[0]);
      RunInv(Apply(s, actions[0]), actions[1..], end);
    }
  }

  lemma InitialInv(s: RoomSys)
    requires Initial(s)
    ensures Inv(s)
  {
  }

  // ---- what follows ----

  lemma ReachableInv(start: RoomSys, actions: seq<Action>, s: RoomSys)
    requires Initial(start) && Run(start, actions, s)
    ensures Inv(s)
  {
    InitialInv(start);
    RunInv(start, actions, s);
  }

  /** An admitted socket whose captured epoch is stale has a closing event or a lag waiting in its
    inbox, or the request that advanced the epoch has not finished its broadcast to this room. */
  lemma StaleSocketIsWarned(start: RoomSys, actions: seq<Action>, s: RoomSys, t: nat)
    requires Initial(start) && Run(start, actions, s) && t in s.tasks && s.tasks[t].stage.Admitted?
    ensures var task := s.tasks[t];
            && task.key.project in s.access && task.key.project in s.content && t in s.rooms.inboxes
            && (task.access != s.access[task.key.project] || task.content != s.content[task.key.project] ==>
                  ClosingQueued(s.rooms.inboxes[t]) || exists m :: m in s.mutators && Owes(s.mutators[m], task))
  {
    ReachableInv(start, actions, s);
    assert SeenFits(s, t) && PlaceFits(s, t);
  }

  /** No torn capture: although its two permissions and two epochs are read at different times, an
    admitted socket may read, and may write exactly if it was allowed to at its captured epoch. */
  lemma AdmissionIsNotTorn(start: RoomSys, actions: seq<Action>, s: RoomSys, t: nat)
    requires Initial(start) && Run(start, actions, s) && t in s.tasks && s.tasks[t].stage.Admitted?
    ensures var task := s.tasks[t];
            && (task.key.project, task.access) in s.inForce
            && PermOf(s.inForce[(task.key.project, task.access)], task.user) == Perm(true, task.write)
  {
    ReachableInv(start, actions, s);
    assert SeenFits(s, t);
  }

  /** Every listening socket is on the channel mapped for its room, so a broadcast reaches it. */
  lemma ListenersAreOnTheMappedChannel(start: RoomSys, actions: seq<Action>, s: RoomSys, t: nat)
    requires Initial(start) && Run(start, actions, s) && t in s.rooms.inboxes
    ensures t in s.tasks && Listening(s.tasks[t].stage) && s.tasks[t].key in s.rooms.channels
    ensures s.rooms.channels[s.tasks[t].key] == s.rooms.inboxes[t].channel
  {
    ReachableInv(start, actions, s);
    assert t in s.tasks && PlaceFits(s, t);
  }

  /** A mapped room always has a socket that listens or still has to look whether it is idle. */
  lemma MappedRoomHasAKeeper(start: RoomSys, actions: seq<Action>, s: RoomSys, key: RoomKey)
    requires Initial(start) && Run(start, actions, s) && key in s.rooms.channels
    ensures exists t :: t in s.tasks && KeepsRoom(s.tasks[t], key, s.rooms.channels[key])
  {
    ReachableInv(start, actions, s);
    assert Kept(s, key);
  }

  /** Once every socket has finished, no room is left. */
  lemma RoomsVanish(start: RoomSys, actions: seq<Action>, s: RoomSys)
    requires Initial(start) && Run(start, actions, s)
    requires forall t :: t in s.tasks ==> s.tasks[t].stage.Done?
    ensures s.rooms.channels == map[] && s.rooms.inboxes == map[]
  {
    ReachableInv(start, actions, s);
    forall key | key in s.rooms.channels
      ensures false
    {
      MappedRoomHasAKeeper(start, actions, s, key);
    }
    forall t | t in s.rooms.inboxes
      ensures false
    {
      ListenersAreOnTheMappedChannel(start, actions, s, t);
    }
  }

  // ---- warned sockets close ----

  /** The steps of one socket in a run. */
  function Reads(actions: seq<Action>, t: nat): nat {
    if actions == [] then 0 else (if actions[0] == Advance(t) then 1 else 0) + Reads(actions[1..], t)
  }

  /** What is read before the event or lag that closes the socket. */
  function BeforeClose(inbox: Inbox): (n: nat)
    ensures n <= |inbox.queue|
    decreases |inbox.queue|
  {
    if inbox.lagged || inbox.queue == [] || Closes(inbox.queue[0]) then 0
    else 1 + BeforeClose(inbox.(queue := inbox.queue[1..]))
  }

  /** Off the channel and on its way out. */
  predicate HasLeft(s: RoomSys, t: nat) {
    t in s.tasks && t !in s.rooms.inboxes
    && (s.tasks[t].stage.Leaving? || s.tasks[t].stage.SawIdle? || s.tasks[t].stage.Done?)
  }

  /** Admitted, with a closing event or a lag ahead. */
  ghost predicate Closing(s: RoomSys, t: nat) {
    t in s.tasks && s.tasks[t].stage.Admitted? && t in s.rooms.inboxes && ClosingQueued(s.rooms.inboxes[t])
  }

  /** What arrives later does not come before what is there. */
  lemma {:induction false} EnqueuedLater(inbox: Inbox, event: Event)
    requires ClosingQueued(inbox)
    ensures ClosingQueued(Enqueued(inbox, event)) && BeforeClose(Enqueued(inbox, event)) <= BeforeClose(inbox)
    decreases |inbox.queue|
  {
    var longer := inbox.queue + [event];
    assert forall e :: e in longer <==> e in inbox.queue || e == event;
    if !inbox.lagged && |longer| <= CHANNEL_CAPACITY && !Closes(inbox.queue[0]) {
      var rest := inbox.(queue := inbox.queue[1..]);
      assert forall e :: e in inbox.queue <==> e == inbox.queue[0] || e in rest.queue;
      EnqueuedLater(rest, event);
      assert longer[1..] == rest.queue + [event];
    }
  }

  lemma SentLater(s: RoomSys, channel: nat, event: Event, t: nat, rooms: RoomMap)
    requires t in s.rooms.inboxes && ClosingQueued(s.rooms.inboxes[t]) && rooms == Sent(s.rooms, channel, event)
    ensures t in rooms.inboxes && ClosingQueued(rooms.inboxes[t])
    ensures BeforeClose(rooms.inboxes[t]) <= BeforeClose(s.rooms.inboxes[t])
  {
    EnqueuedLater(s.rooms.inboxes[t], event);
  }

  /** Another socket's step leaves the inbox alone. */
  lemma OtherSocketStep(s: RoomSys, u: nat, t: nat)
    requires CanAdvance(s, u) && u != t && t in s.tasks
    ensures t in Advanced(s, u).tasks && Advanced(s, u).tasks[t] == s.tasks[t]
    ensures t in s.rooms.inboxes <==> t in Advanced(s, u).rooms.inboxes
    ensures t in s.rooms.inboxes ==> Advanced(s, u).rooms.inboxes[t] == s.rooms.inboxes[t]
  {
    if s.tasks[u].stage.Captured? || s.tasks[u].stage.OpeningRoom? {
      JoiningInbox(s, u, t, Advanced(s, u));
    } else {
      OtherInbox(s, u, t, Advanced(s, u));
    }
  }

  lemma JoiningInbox(s: RoomSys, u: nat, t: nat, s': RoomSys)
    requires CanAdvance(s, u) && u != t && s' == Advanced(s, u)
    requires s.tasks[u].stage.Captured? || s.tasks[u].stage.OpeningRoom?
    ensures t in s.rooms.inboxes <==> t in s'.rooms.inboxes
    ensures t in s.rooms.inboxes ==> s'.rooms.inboxes[t] == s.rooms.inboxes[t]
  {
  }

  lemma OtherInbox(s: RoomSys, u: nat, t: nat, s': RoomSys)
    requires CanAdvance(s, u) && u != t && s' == Advanced(s, u)
    requires !s.tasks[u].stage.Captured? && !s.tasks[u].stage.OpeningRoom?
    ensures t in s.rooms.inboxes <==> t in s'.rooms.inboxes
    ensures t in s.rooms.inboxes ==> s'.rooms.inboxes[t] == s.rooms.inboxes[t]
  {
  }

  lemma WaitingStep(s: RoomSys, a: Action, s': RoomSys, t: nat)
    requires Closing(s, t) && Enabled(s, a) && a != Advance(t) && s' == Apply(s, a)
    ensures HasLeft(s', t)
            || (Closing(s', t) && BeforeClose(s'.rooms.inboxes[t]) <= BeforeClose(s.rooms.inboxes[t]))
  {
    match a
    case Advance(u) => OtherSocketStep(s, u, t);
    case Say(u, event) => SentLater(s, s.tasks[u].channel, event, t, s'.rooms);
    case SendTo(m, room) => SentLater(s, room.1, Event(room.0.doc, s.mutators[m].kind), t, s'.rooms);
    case _ =>
  }

  lemma ReadStep(s: RoomSys, s': RoomSys, t: nat)
    requires Closing(s, t) && CanAdvance(s, t) && s' == Advanced(s, t)
    ensures HasLeft(s', t)
            || (Closing(s', t) && BeforeClose(s'.rooms.inboxes[t]) + 1 <= BeforeClose(s.rooms.inboxes[t]))
  {
    var inbox := s.rooms.inboxes[t];
    if !inbox.lagged && !Closes(inbox.queue[0]) {
      assert forall e :: e in inbox.queue <==> e == inbox.queue[0] || e in inbox.queue[1..];
    }
  }

  lemma LeftStays(s: RoomSys, a: Action, t: nat)
    requires HasLeft(s, t) && Enabled(s, a)
    ensures HasLeft(Apply(s, a), t)
  {
    if a.Advance? && a.t != t {
      OtherSocketStep(s, a.t, t);
    }
  }

  lemma {:induction false} LeftForGood(s: RoomSys, actions: seq<Action>, end: RoomSys, t: nat)
    requires HasLeft(s, t) && Run(s, actions, end)
    ensures HasLeft(end, t)
    decreases |actions|
  {
    if actions != [] {
      LeftStays(s, actions[0], t);
      LeftForGood(Apply(s, actions[0]), actions[1..], end, t);
    }
  }

  lemma {:induction false} ClosingRun(s: RoomSys, actions: seq<Action>, end: RoomSys, t: nat)
    requires Closing(s, t) && Run(s, actions, end)
    ensures HasLeft(end, t)
            || (Closing(end, t) && Reads(actions, t) + BeforeClose(end.rooms.inboxes[t]) <= BeforeClose(s.rooms.inboxes[t]))
    decreases |actions|
  {
    if actions != [] {
      var s' := Apply(s, actions[0]);
      if actions[0] == Advance(t) {
        ReadStep(s, s', t);
      } else {
        WaitingStep(s, actions[0], s', t);
      }
      if HasLeft(s', t) {
        LeftForGood(s', actions[1..], end, t);
      } else {
        ClosingRun(s', actions[1..], end, t);
      }
    }
  }

  /** In every run from a state in which a closing event or a lag waits for a socket, whatever others
    send meanwhile: the socket leaves within as many of its own steps as its queue is long, and one;
    and until it has left its next step is never blocked. */
  lemma WarnedSocketCloses(start: RoomSys, before: seq<Action>, s: RoomSys, actions: seq<Action>, end: RoomSys, t: nat)
    requires Initial(start) && Run(start, before, s) && Run(s, actions, end)
    requires t in s.tasks && s.tasks[t].stage.Admitted? && t in s.rooms.inboxes && ClosingQueued(s.rooms.inboxes[t])
    ensures Reads(actions, t) > |s.rooms.inboxes[t].queue| ==> HasLeft(end, t)
    ensures HasLeft(end, t) || CanAdvance(end, t)
  {
    ReachableInv(start, before, s);
    RunInv(s, actions, end);
    ClosingRun(s, actions, end, t);
    if !HasLeft(end, t) {
      assert SeenFits(end, t);
    }
  }
}
