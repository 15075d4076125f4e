/** Sockets that authorise, subscribe and revalidate while grants and content change
  (backend/src/collaboration/websocket.rs, rooms.rs, access/grant_http.rs), one database
  read, lock or send at a time and in any order. */
module RoomRuns {
  import opened Wrappers
  import opened Rooms

  datatype Perm = Perm(read: bool, write: bool)

  /** How far a socket has come. The two reads of the principal, the content epoch and the access
    epoch each happen at a moment of their own, once before subscribing and once after. */
  datatype Stage =
    | Connecting
    | SawRead
    | SawPrincipal
    | SawContent
    | Captured
    | OpeningRoom
    | Subscribed
    | RecheckedRead
    | RecheckedPrincipal
    | RecheckedContent
    | Admitted
    | Leaving
    | SawIdle
    | Done

  datatype Task = Task(key: RoomKey, user: nat, stage: Stage, write: bool, content: nat, access: nat, channel: nat)

  /** A request that committed an epoch advance and has not finished broadcasting it; `rooms` are
    the channels it still has to send to, once it has listed them. */
  datatype Mutator = Mutator(project: nat, kind: EventKind, rooms: Option<set<(RoomKey, nat)>>)

  /** `inForce` remembers the permissions of every access epoch there has been. */
  datatype RoomSys = RoomSys(
    access: map<nat, nat>,
    content: map<nat, nat>,
    perms: map<nat, map<nat, Perm>>,
    rooms: RoomMap,
    tasks: map<nat, Task>,
    mutators: map<nat, Mutator>,
    inForce: map<(nat, nat), map<nat, Perm>>)

  datatype Action =
    | Connect(t: nat, key: RoomKey, user: nat)
    | Advance(t: nat)
    | Quit(t: nat)
    | Say(t: nat, event: Event)
    | ChangeAccess(m: nat, project: nat, perms: map<nat, Perm>)
    | ReplaceContent(m: nat, project: nat)
    | ListRooms(m: nat)
    | SendTo(m: nat, room: (RoomKey, nat))

  function PermOf(perms: map<nat, Perm>, user: nat): Perm {
    if user in perms then perms[user] else Perm(false, false)
  }

  predicate Listening(stage: Stage) {
    stage.Subscribed? || stage.RecheckedRead? || stage.RecheckedPrincipal? || stage.RecheckedContent? || stage.Admitted?
  }

  /** Still has to see to it that an idle room goes away. */
  predicate Attached(stage: Stage) {
    Listening(stage) || stage.Leaving? || stage.SawIdle?
  }

  predicate HasCaptured(stage: Stage) {
    stage.Captured? || stage.OpeningRoom? || Listening(stage)
  }

  predicate CanAdvance(s: RoomSys, t: nat) {
    t in s.tasks && var task := s.tasks[t];
    && task.key.project in s.access && task.key.project in s.content && task.key.project in s.perms
    && (task.stage.Admitted? ==>
          t in s.rooms.inboxes && (s.rooms.inboxes[t].lagged || s.rooms.inboxes[t].queue != []))
    && !task.stage.Done?
  }

  predicate Enabled(s: RoomSys, a: Action) {
    match a
    case Connect(t, key, user) => t !in s.tasks && key.project in s.access
    case Advance(t) => CanAdvance(s, t)
    case Quit(t) => t in s.tasks && (Listening(s.tasks[t].stage) || !Attached(s.tasks[t].stage))
    case Say(t, event) => t in s.tasks && Attached(s.tasks[t].stage) && event.kind.Relayed?
    case ChangeAccess(m, project, perms) => m !in s.mutators && project in s.access
    case ReplaceContent(m, project) => m !in s.mutators && project in s.content
    case ListRooms(m) => m in s.mutators && s.mutators[m].rooms.None?
    case SendTo(m, room) => m in s.mutators && s.mutators[m].rooms.Some? && room in s.mutators[m].rooms.value
  }

  function At(s: RoomSys, t: nat, task: Task): RoomSys {
    s.(tasks := s.tasks[t := task])
  }

  /** The receiver is dropped; the room may have become idle. */
  function Left(s: RoomSys, t: nat): RoomSys
    requires t in s.tasks
  {
    At(s, t, s.tasks[t].(stage := Leaving)).(rooms := Dropped(s.rooms, t))
  }

  /** One step of a socket that is not admitted yet, or is on its way out. */
  function Advanced(s: RoomSys, t: nat): RoomSys
    requires CanAdvance(s, t)
  {
    var task := s.tasks[t];
    var project := task.key.project;
    var perm := PermOf(s.perms[project], task.user);
    match task.stage
    case Connecting => At(s, t, task.(stage := if perm.read then SawRead else Done))
    case SawRead => At(s, t, task.(stage := SawPrincipal, write := perm.write))
    case SawPrincipal => At(s, t, task.(stage := SawContent, content := s.content[project]))
    case SawContent => At(s, t, task.(stage := Captured, access := s.access[project]))
    case Captured =>
      if task.key in s.rooms.channels then InRoom(s, t, Joined(s.rooms, task.key, t))
      else At(s, t, task.(stage := OpeningRoom))
    case OpeningRoom => InRoom(s, t, Rooms.Subscribed(s.rooms, task.key, t))
    case Subscribed => if perm.read then At(s, t, task.(stage := RecheckedRead)) else Left(s, t)
    case RecheckedRead =>
      if perm.write == task.write then At(s, t, task.(stage := RecheckedPrincipal)) else Left(s, t)
    case RecheckedPrincipal =>
      if s.content[project] == task.content then At(s, t, task.(stage := RecheckedContent)) else Left(s, t)
    case RecheckedContent =>
      if s.access[project] == task.access then At(s, t, task.(stage := Admitted)) else Left(s, t)
    case Admitted => Forwarded(s, t)
    case Leaving => At(s, t, task.(stage := if Idle(s.rooms, task.channel) then SawIdle else Done))
    case SawIdle => At(s, t, task.(stage := Done)).(rooms := Removed(s.rooms, task.key, task.channel))
    case Done => s
  }

  function InRoom(s: RoomSys, t: nat, rooms: RoomMap): RoomSys
    requires t in s.tasks && t in rooms.inboxes
  {
    At(s, t, s.tasks[t].(stage := Subscribed, channel := rooms.inboxes[t].channel)).(rooms := rooms)
  }

  /** The forwarder takes the next event; a closing event or a lag ends the socket. */
  function Forwarded(s: RoomSys, t: nat): RoomSys
    requires t in s.tasks && t in s.rooms.inboxes && (s.rooms.inboxes[t].lagged || s.rooms.inboxes[t].queue != [])
  {
    var inbox := s.rooms.inboxes[t];
    if inbox.lagged || Closes(inbox.queue[0]) then Left(s, t)
    else s.(rooms := s.rooms.(inboxes := s.rooms.inboxes[t := inbox.(queue := inbox.queue[1..])]))
  }

  function Apply(s: RoomSys, a: Action): RoomSys
    requires Enabled(s, a)
  {
    match a
    case Connect(t, key, user) => At(s, t, Task(key, user, Connecting, false, 0, 0, 0))
    case Advance(t) => Advanced(s, t)
    case Quit(t) =>
      if Listening(s.tasks[t].stage) then Left(s, t) else At(s, t, s.tasks[t].(stage := Done))
    case Say(t, event) => s.(rooms := Sent(s.rooms, s.tasks[t].channel, event))
    case ChangeAccess(m, project, perms) =>
      s.(access := s.access[project := s.access[project] + 1],
         perms := s.perms[project := perms],
         mutators := s.mutators[m := Mutator(project, AccessChanged, None)],
         inForce := s.inForce[(project, s.access[project] + 1) := perms])
    case ReplaceContent(m, project) =>
      s.(content := s.content[project := s.content[project] + 1],
         mutators := s.mutators[m := Mutator(project, ProjectReplaced, None)])
    case ListRooms(m) =>
      var mutator := s.mutators[m];
      s.(mutators := s.mutators[m := mutator.(rooms := Some(ProjectRooms(s.rooms, mutator.project)))])
    case SendTo(m, room) =>
      var mutator := s.mutators[m];
      s.(mutators := s.mutators[m := mutator.(rooms := Some(mutator.rooms.value - {room}))],
         rooms := Sent(s.rooms, room.1, Event(room.0.doc, mutator.kind)))
  }

  predicate Initial(s: RoomSys) {
    && s.rooms == RoomMap(map[], map[], 0) && s.tasks == map[] && s.mutators == map[]
    && s.access.Keys == s.content.Keys == s.perms.Keys
    && (forall p :: p in s.access ==> (p, s.access[p]) in s.inForce && s.inForce[(p, s.access[p])] == s.perms[p])
    && (forall epoch :: epoch in s.inForce ==> epoch.0 in s.access && epoch.1 <= s.access[epoch.0])
  }

  ghost predicate Run(start: RoomSys, actions: seq<Action>, end: RoomSys)
    decreases |actions|
  {
    if actions == [] then end == start
    else Enabled(start, actions[0]) && Run(Apply(start, actions[0]), actions[1..], end)
  }

  // ---- invariant ----

  /** The mutator has committed and will still send its event to the socket's room. */
  predicate Owes(m: Mutator, task: Task) {
    && m.project == task.key.project
    && (m.rooms.None? || (task.key, task.channel) in m.rooms.value)
  }

  /** Something is under way that will close the socket. */
  ghost predicate Warned(s: RoomSys, t: nat)
    requires t in s.tasks
  {
    || (t in s.rooms.inboxes && ClosingQueued(s.rooms.inboxes[t]))
    || (exists m :: m in s.mutators && Owes(s.mutators[m], s.tasks[t]))
  }

  ghost predicate EpochsFit(s: RoomSys) {
    && s.access.Keys == s.content.Keys == s.perms.Keys
    && (forall p :: p in s.access ==> (p, s.access[p]) in s.inForce && s.inForce[(p, s.access[p])] == s.perms[p])
    && (forall epoch :: epoch in s.inForce ==> epoch.0 in s.access && epoch.1 <= s.access[epoch.0])
    && (forall m :: m in s.mutators ==> Closes(Event("", s.mutators[m].kind)))
  }

  /** What the socket has seen, as far as it can still be relied upon. */
  ghost predicate SeenFits(s: RoomSys, t: nat)
    requires t in s.tasks
  {
    var task := s.tasks[t];
    var project := task.key.project;
    && project in s.access && project in s.content && project in s.perms
    && (HasCaptured(task.stage) || task.stage.SawContent? ==> task.content <= s.content[project])
    && (HasCaptured(task.stage) ==> task.access <= s.access[project])
    && (task.stage.RecheckedRead? || task.stage.RecheckedPrincipal? || task.stage.RecheckedContent? ==>
          task.access == s.access[project] ==>
            var perm := PermOf(s.perms[project], task.user);
            perm.read && (task.stage.RecheckedRead? || perm.write == task.write))
    && (task.stage.RecheckedContent? || task.stage.Admitted? ==>
          task.content == s.content[project] || Warned(s, t))
    && (task.stage.Admitted? ==>
          && (task.access == s.access[project] || Warned(s, t))
          && (project, task.access) in s.inForce
          && PermOf(s.inForce[(project, task.access)], task.user) == Perm(true, task.write))
  }

  /** Listening sockets are exactly the receivers, each on the mapped channel of its room. */
  ghost predicate PlaceFits(s: RoomSys, t: nat)
    requires t in s.tasks
  {
    var task := s.tasks[t];
    && (Listening(task.stage) <==> t in s.rooms.inboxes)
    && (Listening(task.stage) ==>
          && s.rooms.inboxes[t].channel == task.channel
          && task.key in s.rooms.channels && s.rooms.channels[task.key] == task.channel)
    && (Attached(task.stage) ==> task.channel < s.rooms.nextChannel)
  }

  /** Some socket of the room is still there to remove it. */
  ghost predicate Kept(s: RoomSys, key: RoomKey)
    requires key in s.rooms.channels
  {
    exists t :: t in s.tasks && KeepsRoom(s.tasks[t], key, s.rooms.channels[key])
  }

  predicate KeepsRoom(task: Task, key: RoomKey, channel: nat) {
    Attached(task.stage) && task.key == key && task.channel == channel
  }

  ghost predicate Inv(s: RoomSys) {
    && EpochsFit(s)
    && WellFormed(s.rooms)
    && s.rooms.inboxes.Keys <= s.tasks.Keys
    && (forall t {:trigger SeenFits(s, t)} :: t in s.tasks ==> SeenFits(s, t))
    && (forall t {:trigger PlaceFits(s, t)} :: t in s.tasks ==> PlaceFits(s, t))
    && (forall key {:trigger Kept(s, key)} :: key in s.rooms.channels ==> Kept(s, key))
  }
}
