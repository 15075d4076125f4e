/** Broadcast rooms: a map from room keys to channels, and the inbox of every receiver
  (backend/src/collaboration/rooms.rs, websocket.rs). */
module Rooms {
  import opened Wrappers

  datatype RoomKey = RoomKey(project: nat, doc: string)

  /** `Relayed` is every kind that is merely passed on to the client. */
  datatype EventKind =
    | Relayed
    | AccessChanged
    | ProjectReplaced
    | DocumentChanged
    | ServerError(resync: bool)

  datatype Event = Event(doc: string, kind: EventKind)

  /** What one receiver has not read yet; `lagged` once the channel dropped some of it. */
  datatype Inbox = Inbox(channel: nat, queue: seq<Event>, lagged: bool)

  datatype RoomMap = RoomMap(channels: map<RoomKey, nat>, inboxes: map<nat, Inbox>, nextChannel: nat)

  const CHANNEL_CAPACITY: nat := 512
  const PROJECT_CONTROL_ROOM := "__project_control__"

  /** The forwarder sends such an event to the client and closes the socket. */
  predicate Closes(event: Event) {
    match event.kind
    case AccessChanged => true
    case ProjectReplaced => true
    case DocumentChanged => true
    case ServerError(resync) => resync
    case Relayed => false
  }

  /** The receiver will close its socket when it gets to what is already in its inbox. */
  ghost predicate ClosingQueued(inbox: Inbox) {
    inbox.lagged || exists event :: event in inbox.queue && Closes(event)
  }

  predicate Idle(r: RoomMap, channel: nat) {
    forall i :: i in r.inboxes ==> r.inboxes[i].channel != channel
  }

  function Enqueued(inbox: Inbox, event: Event): Inbox {
    var queue := inbox.queue + [event];
    if |queue| <= CHANNEL_CAPACITY then inbox.(queue := queue)
    else inbox.(queue := queue[|queue| - CHANNEL_CAPACITY..], lagged := true)
  }

  function Sent(r: RoomMap, channel: nat, event: Event): RoomMap {
    r.(inboxes := map i | i in r.inboxes ::
      if r.inboxes[i].channel == channel then Enqueued(r.inboxes[i], event) else r.inboxes[i])
  }

  function Joined(r: RoomMap, key: RoomKey, receiver: nat): RoomMap
    requires key in r.channels
  {
    r.(inboxes := r.inboxes[receiver := Inbox(r.channels[key], [], false)])
  }

  function Opened(r: RoomMap, key: RoomKey): RoomMap {
    r.(channels := r.channels[key := r.nextChannel], nextChannel := r.nextChannel + 1)
  }

  /** Joins the mapped channel of `key`, opening one where there is none. */
  function Subscribed(r: RoomMap, key: RoomKey, receiver: nat): RoomMap {
    Joined(if key in r.channels then r else Opened(r, key), key, receiver)
  }

  function Dropped(r: RoomMap, receiver: nat): RoomMap {
    r.(inboxes := r.inboxes - {receiver})
  }

  /** The second, locked half of removal: only this channel, and only while nobody listens. */
  function Removed(r: RoomMap, key: RoomKey, channel: nat): RoomMap {
    if key in r.channels && r.channels[key] == channel && Idle(r, channel)
    then r.(channels := r.channels - {key})
    else r
  }

  /** The rooms of a project and their channels at one moment. */
  function ProjectRooms(r: RoomMap, project: nat): set<(RoomKey, nat)> {
    set key | key in r.channels && key.project == project :: (key, r.channels[key])
  }

  /** No receiver listens on a channel that is not mapped, and no two rooms share one. */
  ghost predicate WellFormed(r: RoomMap) {
    && (forall key :: key in r.channels ==> r.channels[key] < r.nextChannel)
    && (forall k, l :: k in r.channels && l in r.channels && r.channels[k] == r.channels[l] ==> k == l)
    && (forall i :: i in r.inboxes ==> |r.inboxes[i].queue| <= CHANNEL_CAPACITY)
    && (forall i {:trigger Mapped(r, r.inboxes[i].channel)} :: i in r.inboxes ==> Mapped(r, r.inboxes[i].channel))
  }

  ghost predicate Mapped(r: RoomMap, channel: nat) {
    exists key :: key in r.channels && r.channels[key] == channel
  }

  /** A queued closing event is never lost: when newer events push it out, the receiver lags,
    and a lagging receiver closes as well. */
  lemma ClosingSurvives(inbox: Inbox, event: Event)
    requires |inbox.queue| <= CHANNEL_CAPACITY
    ensures ClosingQueued(Enqueued(inbox, event))
            <==> ClosingQueued(inbox) || Closes(event) || |inbox.queue| == CHANNEL_CAPACITY
  {
    var longer := inbox.queue + [event];
    assert forall e :: e in longer <==> e in inbox.queue || e == event;
  }

  /** Joining, leaving and removing keep receivers on mapped channels. */
  lemma SubscribedWellFormed(r: RoomMap, key: RoomKey, receiver: nat)
    requires WellFormed(r) && receiver !in r.inboxes
    ensures var r' := Subscribed(r, key, receiver);
            WellFormed(r') && key in r'.channels && r'.inboxes[receiver].channel == r'.channels[key]
  {
    var r' := Subscribed(r, key, receiver);
    forall i | i in r'.inboxes
      ensures Mapped(r', r'.inboxes[i].channel)
    {
      if i == receiver {
        assert r'.channels[key] == r'.inboxes[i].channel;
      } else {
        assert Mapped(r, r.inboxes[i].channel);
        var k :| k in r.channels && r.channels[k] == r.inboxes[i].channel;
        assert r'.channels[k] == r'.inboxes[i].channel;
      }
    }
  }

  lemma RemovedWellFormed(r: RoomMap, key: RoomKey, channel: nat)
    requires WellFormed(r)
    ensures WellFormed(Removed(r, key, channel))
  {
    var r' := Removed(r, key, channel);
    forall i | i in r'.inboxes
      ensures Mapped(r', r'.inboxes[i].channel)
    {
      assert Mapped(r, r.inboxes[i].channel);
      var k :| k in r.channels && r.channels[k] == r.inboxes[i].channel;
      assert k in r'.channels;
    }
  }

  /** Taking receivers away or changing their queues keeps the map well formed. */
  lemma SameChannelsWellFormed(r: RoomMap, r': RoomMap)
    requires WellFormed(r) && r'.channels == r.channels && r'.nextChannel == r.nextChannel
    requires forall i :: i in r'.inboxes ==>
      i in r.inboxes && r'.inboxes[i].channel == r.inboxes[i].channel && |r'.inboxes[i].queue| <= CHANNEL_CAPACITY
    ensures WellFormed(r')
  {
    forall i | i in r'.inboxes
      ensures Mapped(r', r'.inboxes[i].channel)
    {
      assert Mapped(r, r.inboxes[i].channel);
      var key :| key in r.channels && r.channels[key] == r.inboxes[i].channel;
      assert r'.channels[key] == r'.inboxes[i].channel;
    }
  }

  /** Exactly the receivers of the rooms in `sent` got the event, under their room's name. */
  ghost predicate Delivered(before: RoomMap, after: RoomMap, kind: EventKind, sent: set<RoomKey>) {
    && after.channels == before.channels && after.inboxes.Keys == before.inboxes.Keys
    && forall key, i :: key in before.channels && i in before.inboxes && before.inboxes[i].channel == before.channels[key] ==>
         after.inboxes[i] == if key in sent then Enqueued(before.inboxes[i], Event(key.doc, kind)) else before.inboxes[i]
  }

  lemma DeliveredNext(before: RoomMap, r: RoomMap, kind: EventKind, sent: set<RoomKey>, key: RoomKey)
    requires WellFormed(before) && Delivered(before, r, kind, sent) && key in before.channels && key !in sent
    ensures Delivered(before, Sent(r, before.channels[key], Event(key.doc, kind)), kind, sent + {key})
  {
    var after := Sent(r, before.channels[key], Event(key.doc, kind));
    forall k, i | k in before.channels && i in before.inboxes && before.inboxes[i].channel == before.channels[k]
      ensures after.inboxes[i] ==
        if k in sent + {key} then Enqueued(before.inboxes[i], Event(k.doc, kind)) else before.inboxes[i]
    {
      assert r.inboxes[i].channel == before.inboxes[i].channel;
      assert before.channels[k] == before.channels[key] ==> k == key;
    }
  }

  /** The next channel is nobody's yet. */
  lemma FreshChannel(r: RoomMap)
    requires WellFormed(r)
    ensures r.nextChannel !in r.channels.Values
    ensures forall i :: i in r.inboxes ==> r.inboxes[i].channel != r.nextChannel
  {
    forall i | i in r.inboxes
      ensures r.inboxes[i].channel != r.nextChannel
    {
      assert Mapped(r, r.inboxes[i].channel);
    }
  }

  /** The event is behind what was there; of more than 512 the oldest is dropped, and noticed. */
  predicate Received(inbox: Inbox, inbox': Inbox, event: Event) {
    && inbox'.channel == inbox.channel
    && (if |inbox.queue| < 512 then inbox'.queue == inbox.queue + [event] && inbox'.lagged == inbox.lagged
        else |inbox'.queue| == 512 && inbox'.queue[511] == event && inbox'.lagged
             && inbox'.queue[..511] == inbox.queue[|inbox.queue| - 511..])
  }

  lemma EnqueuedIsReceived(inbox: Inbox, event: Event)
    ensures Received(inbox, Enqueued(inbox, event), event)
  {
  }

  class CollaborationRooms {
    var channels: map<RoomKey, nat>
    var inboxes: map<nat, Inbox>
    var nextChannel: nat
    var nextReceiver: nat

    function View(): RoomMap
      reads this
    {
      RoomMap(channels, inboxes, nextChannel)
    }

    ghost predicate Valid()
      reads this
    {
      WellFormed(View()) && forall i :: i in inboxes ==> i < nextReceiver
    }

    constructor ()
      ensures Valid() && View() == RoomMap(map[], map[], 0)
    {
      channels, inboxes, nextChannel, nextReceiver := map[], map[], 0, 0;
    }

    /** First under the read lock, then again under the write lock, and only then a new channel. */
    method Subscribe(key: RoomKey) returns (sender: nat, receiver: nat)
      requires Valid()
      modifies this
      ensures Valid() && receiver !in old(inboxes)
      ensures View() == Subscribed(old(View()), key, receiver)
      ensures key in old(channels) ==> channels == old(channels) && sender == old(channels)[key]
      ensures key !in old(channels) ==>
        channels == old(channels)[key := sender] && sender !in old(channels).Values
        && forall i :: i in old(inboxes) ==> old(inboxes)[i].channel != sender
      ensures inboxes == old(inboxes)[receiver := Inbox(sender, [], false)]
    {
      SubscribedWellFormed(View(), key, nextReceiver);
      receiver := nextReceiver;
      nextReceiver := nextReceiver + 1;
      if key in channels {
        sender := channels[key];
        inboxes := inboxes[receiver := Inbox(sender, [], false)];
        return;
      }
      FreshChannel(View());
      sender := nextChannel;
      nextChannel := nextChannel + 1;
      channels := channels[key := sender];
      inboxes := inboxes[receiver := Inbox(sender, [], false)];
    }

    /** Drops the receiver and forgets its room if that was the last one. */
    method Leave(key: RoomKey, sender: nat, receiver: nat)
      requires Valid() && receiver in inboxes
      requires inboxes[receiver].channel == sender && key in channels && channels[key] == sender
      modifies this
      ensures Valid() && inboxes == old(inboxes) - {receiver}
      ensures key in channels <==> exists i :: i in inboxes && inboxes[i].channel == sender
      ensures forall k :: k != key ==> (k in channels <==> k in old(channels))
      ensures forall k :: k in channels ==> channels[k] == old(channels)[k]
    {
      SameChannelsWellFormed(View(), Dropped(View(), receiver));
      inboxes := inboxes - {receiver};
      RemoveIfIdle(key, sender);
    }

    method RemoveIfIdle(key: RoomKey, sender: nat)
      requires Valid()
      modifies this
      ensures Valid() && View() == Removed(old(View()), key, sender) && inboxes == old(inboxes)
      ensures channels == if key in old(channels) && old(channels)[key] == sender
                             && (forall i :: i in inboxes ==> inboxes[i].channel != sender)
                          then old(channels) - {key} else old(channels)
    {
      RemovedWellFormed(View(), key, sender);
      if !Idle(View(), sender) {
        return;
      }
      if key in channels && channels[key] == sender && Idle(View(), sender) {
        channels := channels - {key};
      }
    }

    method Send(sender: nat, event: Event)
      requires Valid()
      modifies this
      ensures Valid() && View() == Sent(old(View()), sender, event)
    {
      SameChannelsWellFormed(View(), Sent(View(), sender, event));
      inboxes := map i | i in inboxes :: if inboxes[i].channel == sender then Enqueued(inboxes[i], event) else inboxes[i];
    }

    /** Sends to every room of the project, under that room's own name, and to no other. */
    method BroadcastProject(project: nat, kind: EventKind)
      requires Valid()
      modifies this
      ensures Valid()
      ensures Delivered(old(View()), View(), kind, set key | key in old(channels) && key.project == project)
      ensures channels == old(channels) && inboxes.Keys == old(inboxes).Keys
      ensures forall key, i :: key in channels && i in inboxes && old(inboxes)[i].channel == channels[key] ==>
        if key.project == project then Received(old(inboxes)[i], inboxes[i], Event(key.doc, kind))
        else inboxes[i] == old(inboxes)[i]
    {
      ghost var start := View();
      var rooms := set key | key in channels && key.project == project;
      ghost var sent: set<RoomKey> := {};
      while rooms != {}
        invariant Valid() && Delivered(start, View(), kind, sent)
        invariant rooms !! sent && rooms + sent == set key | key in start.channels && key.project == project
        decreases rooms
      {
        var key :| key in rooms;
        DeliveredNext(start, View(), kind, sent, key);
        Send(channels[key], Event(key.doc, kind));
        sent := sent + {key};
        rooms := rooms - {key};
      }
      forall key, i | key in channels && i in inboxes && start.inboxes[i].channel == channels[key] && key.project == project
        ensures Received(start.inboxes[i], inboxes[i], Event(key.doc, kind))
      {
        EnqueuedIsReceived(start.inboxes[i], Event(key.doc, kind));
      }
    }

    /** What the forwarder gets next: a lag is reported once and closes the socket. */
    method Receive(receiver: nat) returns (event: Option<Event>, closes: bool)
      requires Valid() && receiver in inboxes && (inboxes[receiver].lagged || inboxes[receiver].queue != [])
      modifies this
      ensures Valid() && channels == old(channels)
      ensures event.None? <==> old(inboxes)[receiver].lagged
      ensures event.Some? ==> event.value == old(inboxes)[receiver].queue[0]
      ensures closes <==>
        (event.None? || event.value.kind == AccessChanged || event.value.kind == ProjectReplaced
         || event.value.kind == DocumentChanged || event.value.kind == ServerError(true))
      ensures inboxes == if closes then old(inboxes) - {receiver}
                         else old(inboxes)[receiver := old(inboxes)[receiver].(queue := old(inboxes)[receiver].queue[1..])]
    {
      SameChannelsWellFormed(View(), Dropped(View(), receiver));
      if inboxes[receiver].lagged {
        inboxes := inboxes - {receiver};
        return None, true;
      }
      event := Some(inboxes[receiver].queue[0]);
      closes := Closes(event.value);
      if closes {
        inboxes := inboxes - {receiver};
      } else {
        ghost var before := View();
        inboxes := inboxes[receiver := inboxes[receiver].(queue := inboxes[receiver].queue[1..])];
        SameChannelsWellFormed(before, View());
      }
    }
  }
}
