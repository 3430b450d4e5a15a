/**
 The relay server's handlers as functions of its state.

 The state is the two process-wide registry maps, `connectedUsers` (user id to
 socket id) and `userSockets` (socket id to the user data the socket
 announced), together with the open connections. Each handler maps the state,
 the sending connection and the payload to the next state and the deliveries it
 makes. `Server.RelayServer` performs the same handlers in place and is proved
 to agree with these functions.
 */
module Relay {
  import opened Json
  import opened Delivery

  datatype State = State(
    connectedUsers: map<JsValue, ConnId>,
    userSockets: map<ConnId, Payload>,
    live: seq<ConnId>)

  /** What one handler leaves behind: the next state and the deliveries, in emission order. */
  datatype Outcome = Outcome(next: State, out: seq<Delivery>)

  /** The client-to-server events; `Connect` is the acceptance of a new connection. */
  datatype Inbound =
    | Connect
    | UserConnected(userData: Payload)
    | SendMessage(data: Payload)
    | Typing(data: Payload)
    | TaskCreated(data: Payload)
    | TaskUpdated(data: Payload)
    | Disconnect

  /**
   Open connections are distinct, and only an open connection has user data:
   an entry is made by the connection itself and removed when it closes.
   Payloads are objects here; a falsy scalar announcement would not be
   removed on close, and it lies outside the model.
   */
  predicate Valid(st: State)
  {
    && NoDup(st.live)
    && forall c :: c in st.userSockets ==> c in st.live
  }

  /** socket.io accepts a connection under an id that is not open, and runs handlers for open connections only. */
  predicate Enabled(st: State, s: ConnId, ev: Inbound)
  {
    if ev.Connect? then s !in st.live else s in st.live
  }

  /** The empty registry of a freshly started process. */
  const Initial := State(map[], map[], [])

  function HandleConnect(st: State, s: ConnId): (r: Outcome)
    ensures r.out == [] && s in r.next.live
    ensures r.next.connectedUsers == st.connectedUsers && r.next.userSockets == st.userSockets
    ensures forall c :: c in r.next.live <==> c in st.live || c == s
  {
    Outcome(st.(live := st.live + [s]), [])
  }

  /** `user_connected`: (over)write both registry entries and announce the user as online to everyone. */
  function HandleUserConnected(st: State, s: ConnId, userData: Payload): (r: Outcome)
    ensures Lookup(r.next.connectedUsers, Field(userData, "id")) == Some(s)
    ensures Lookup(r.next.userSockets, s) == Some(userData)
    ensures r.next.live == st.live && |r.out| == |st.live|
    ensures forall d :: d in r.out ==> d.target in st.live && d.event == StatusOf(userData, Online)
  {
    var userId := Field(userData, "id");
    var next := st.(connectedUsers := st.connectedUsers[userId := s],
                    userSockets := st.userSockets[s := userData]);
    Outcome(next, Broadcast(st.live, StatusOf(userData, Online)))
  }

  /**
   `send_message`: a truthy `recipient_id` makes the message private and wins
   over `group_id`; a truthy `group_id` alone broadcasts it. Both routes
   acknowledge to the sender; a message with neither produces nothing.
   */
  function HandleSendMessage(st: State, s: ConnId, data: Payload): (r: Outcome)
    ensures r.next == st
    ensures r.out != [] <==> Truthy(Field(data, "recipient_id")) || Truthy(Field(data, "group_id"))
    ensures r.out != [] ==> r.out[|r.out| - 1] == Delivery(s, MessageSent(true, Field(data, "message_id")))
    ensures forall i :: 0 <= i < |r.out| - 1 ==> r.out[i].event == NewMessage(data) && r.out[i].target in st.live
  {
    var ack := ToSender(s, MessageSent(true, Field(data, "message_id")));
    if Truthy(Field(data, "recipient_id")) then
      var toRecipient :=
        match Lookup(st.connectedUsers, Field(data, "recipient_id"))
        case Some(c) => ToRoom(st.live, c, NewMessage(data))
        case None => [];
      Outcome(st, toRecipient + ack)
    else if Truthy(Field(data, "group_id")) then
      Outcome(st, Broadcast(st.live, NewMessage(data)) + ack)
    else
      Outcome(st, [])
  }

  /** `typing`: to the recipient's connection, or to everyone but the sender for a group. */
  function HandleTyping(st: State, s: ConnId, data: Payload): (r: Outcome)
    ensures r.next == st
    ensures forall d :: d in r.out ==> d.target in st.live && d.event.UserTyping? && d.event.isTyping
    ensures !Truthy(Field(data, "recipient_id")) ==> forall d :: d in r.out ==> d.target != s
  {
    if Truthy(Field(data, "recipient_id")) then
      match Lookup(st.connectedUsers, Field(data, "recipient_id"))
      case Some(c) =>
        Outcome(st, ToRoom(st.live, c, UserTyping(Field(data, "userId"), Field(data, "username"), None, true)))
      case None => Outcome(st, [])
    else if Truthy(Field(data, "group_id")) then
      var e := UserTyping(Field(data, "userId"), Field(data, "username"), Some(Field(data, "group_id")), true);
      Outcome(st, BroadcastExcept(st.live, s, e))
    else
      Outcome(st, [])
  }

  /** `task_created`: relay the payload as `new_task` to everyone. */
  function HandleTaskCreated(st: State, data: Payload): (r: Outcome)
    ensures r.next == st && |r.out| == |st.live|
    ensures forall i :: 0 <= i < |r.out| ==> r.out[i] == Delivery(st.live[i], NewTask(data))
  {
    Outcome(st, Broadcast(st.live, NewTask(data)))
  }

  /** `task_updated`: relay the payload as `task_update` to everyone. */
  function HandleTaskUpdated(st: State, data: Payload): (r: Outcome)
    ensures r.next == st && |r.out| == |st.live|
    ensures forall i :: 0 <= i < |r.out| ==> r.out[i] == Delivery(st.live[i], TaskUpdate(data))
  {
    Outcome(st, Broadcast(st.live, TaskUpdate(data)))
  }

  /**
   `disconnect`: socket.io has already taken the socket out of the namespace.
   If the socket announced user data, the entry of that data's user id and the
   socket's own entry are deleted and the remaining connections are told that
   the user is offline; otherwise nothing else happens.
   */
  function HandleDisconnect(st: State, s: ConnId): (r: Outcome)
    ensures s !in r.next.live && s !in r.next.userSockets
    ensures forall c :: c in r.next.live <==> c in st.live && c != s
    ensures r.out == [] <==> s !in st.userSockets || r.next.live == []
    ensures forall d :: d in r.out ==> d.target in r.next.live && d.event == StatusOf(st.userSockets[s], Offline)
  {
    var live := Without(st.live, s);
    match Lookup(st.userSockets, s)
    case Some(userData) =>
      Outcome(State(st.connectedUsers - {Field(userData, "id")}, st.userSockets - {s}, live),
              Broadcast(live, StatusOf(userData, Offline)))
    case None =>
      Outcome(st.(live := live), [])
  }

  /** One inbound event from connection `s`, dispatched to its handler. */
  function Step(st: State, s: ConnId, ev: Inbound): (r: Outcome)
    ensures ev.SendMessage? || ev.Typing? || ev.TaskCreated? || ev.TaskUpdated? ==> r.next == st
    ensures ev.Connect? ==> r.out == [] && r.next.connectedUsers == st.connectedUsers && r.next.userSockets == st.userSockets
    ensures forall d :: d in r.out ==> d.target in r.next.live || d.target == s
  {
    match ev
    case Connect => HandleConnect(st, s)
    case UserConnected(userData) => HandleUserConnected(st, s, userData)
    case SendMessage(data) => HandleSendMessage(st, s, data)
    case Typing(data) => HandleTyping(st, s, data)
    case TaskCreated(data) => HandleTaskCreated(st, data)
    case TaskUpdated(data) => HandleTaskUpdated(st, data)
    case Disconnect => HandleDisconnect(st, s)
  }

  /** The user-status event the registry announces for `userData`. */
  function StatusOf(userData: Payload, status: Status): OutEvent
  {
    UserStatusChange(Field(userData, "id"), Field(userData, "username"), status)
  }

  // ---------------------------------------------------------------------------
  // Connection registry

  /**
   `user_connected` maps the announced id to this socket and this socket to the
   data, touches no other entry, and gives every open connection exactly one
   "online" event, whether or not the user was registered already.
   */
  lemma UserConnectedRegisters(st: State, s: ConnId, userData: Payload, o: Outcome)
    requires Valid(st) && s in st.live
    requires o == HandleUserConnected(st, s, userData)
    ensures Valid(o.next) && o.next.live == st.live
    ensures Lookup(o.next.connectedUsers, Field(userData, "id")) == Some(s)
    ensures Lookup(o.next.userSockets, s) == Some(userData)
    ensures forall u :: u != Field(userData, "id") ==>
              Lookup(o.next.connectedUsers, u) == Lookup(st.connectedUsers, u)
    ensures forall c :: c != s ==> Lookup(o.next.userSockets, c) == Lookup(st.userSockets, c)
    ensures forall c :: Received(o.out, c) == if c in st.live then [StatusOf(userData, Online)] else []
  {
    var e := StatusOf(userData, Online);
    assert o.out == Broadcast(st.live, e);
    forall c ensures Received(o.out, c) == if c in st.live then [e] else [] {
      ReceivedBroadcast(st.live, e, c);
    }
  }

  /** Closing a connection that never announced a user changes neither map and emits nothing. */
  lemma DisconnectUnknown(st: State, s: ConnId, o: Outcome)
    requires Valid(st) && s in st.live && s !in st.userSockets
    requires o == HandleDisconnect(st, s)
    ensures o.next.connectedUsers == st.connectedUsers
    ensures o.next.userSockets == st.userSockets
    ensures s !in o.next.live && Valid(o.next)
    ensures o.out == []
  {
  }

  /**
   Closing a connection that announced `userData` deletes that connection's
   entry and the entry of `userData`'s id, wherever the latter points by now,
   and gives each remaining connection exactly one "offline" event.
   */
  lemma DisconnectRegistered(st: State, s: ConnId, o: Outcome)
    requires Valid(st) && s in st.live && s in st.userSockets
    requires o == HandleDisconnect(st, s)
    ensures o.next.connectedUsers == st.connectedUsers - {Field(st.userSockets[s], "id")}
    ensures o.next.userSockets == st.userSockets - {s}
    ensures Lookup(o.next.connectedUsers, Field(st.userSockets[s], "id")) == None
    ensures forall c :: c in o.next.live <==> c in st.live && c != s
    ensures Valid(o.next)
    ensures forall c :: Received(o.out, c) ==
              if c in st.live && c != s then [StatusOf(st.userSockets[s], Offline)] else []
  {
    var e := StatusOf(st.userSockets[s], Offline);
    forall c ensures Received(o.out, c) == if c in st.live && c != s then [e] else [] {
      ReceivedBroadcast(Without(st.live, s), e, c);
    }
  }

  // ---------------------------------------------------------------------------
  // Event router

  /**
   A `send_message` with a truthy `recipient_id` (whatever `group_id` holds)
   hands the unmodified payload to the recipient's registered connection if it
   is open and to nobody otherwise, and gives the sender exactly one
   successful acknowledgement carrying the payload's `message_id`.
   */
  lemma SendMessagePrivate(st: State, s: ConnId, data: Payload, o: Outcome)
    requires Valid(st) && s in st.live && Truthy(Field(data, "recipient_id"))
    requires o == HandleSendMessage(st, s, data)
    ensures o.next == st
    ensures forall c :: Received(o.out, c) ==
              (if Lookup(st.connectedUsers, Field(data, "recipient_id")) == Some(c) && c in st.live
               then [NewMessage(data)] else [])
              + (if c == s then [MessageSent(true, Field(data, "message_id"))] else [])
  {
    var ack := ToSender(s, MessageSent(true, Field(data, "message_id")));
    var toRecipient :=
      match Lookup(st.connectedUsers, Field(data, "recipient_id"))
      case Some(c) => ToRoom(st.live, c, NewMessage(data))
      case None => [];
    assert o.out == toRecipient + ack;
    forall c ensures Received(o.out, c) ==
              (if Lookup(st.connectedUsers, Field(data, "recipient_id")) == Some(c) && c in st.live
               then [NewMessage(data)] else [])
              + (if c == s then [MessageSent(true, Field(data, "message_id"))] else [])
    {
      ReceivedAppend(toRecipient, ack, c);
    }
  }

  /**
   A `send_message` with a truthy `group_id` and no truthy `recipient_id` hands
   the unmodified payload to every open connection, the sender included, and
   gives the sender exactly one acknowledgement after it.
   */
  lemma SendMessageGroup(st: State, s: ConnId, data: Payload, o: Outcome)
    requires Valid(st) && s in st.live
    requires !Truthy(Field(data, "recipient_id")) && Truthy(Field(data, "group_id"))
    requires o == HandleSendMessage(st, s, data)
    ensures o.next == st
    ensures forall c :: Received(o.out, c) ==
              (if c in st.live then [NewMessage(data)] else [])
              + (if c == s then [MessageSent(true, Field(data, "message_id"))] else [])
    ensures Received(o.out, s) == [NewMessage(data), MessageSent(true, Field(data, "message_id"))]
  {
    var ack := ToSender(s, MessageSent(true, Field(data, "message_id")));
    forall c ensures Received(o.out, c) ==
              (if c in st.live then [NewMessage(data)] else [])
              + (if c == s then [MessageSent(true, Field(data, "message_id"))] else [])
    {
      ReceivedAppend(Broadcast(st.live, NewMessage(data)), ack, c);
      ReceivedBroadcast(st.live, NewMessage(data), c);
    }
  }

  /** A `send_message` with neither field truthy delivers nothing, not even an acknowledgement. */
  lemma SendMessageUnaddressed(st: State, s: ConnId, data: Payload)
    requires !Truthy(Field(data, "recipient_id")) && !Truthy(Field(data, "group_id"))
    ensures HandleSendMessage(st, s, data) == Outcome(st, [])
  {
  }

  /**
   The numeric id 0 is falsy: a message addressed to `recipient_id` 0 is not
   private, so it goes to the group if `group_id` is truthy.
   */
  lemma ZeroRecipientIsAbsent(st: State, s: ConnId, data: Payload)
    requires "recipient_id" in data && data["recipient_id"] == Num(0)
    requires Truthy(Field(data, "group_id"))
    ensures HandleSendMessage(st, s, data).out ==
              Broadcast(st.live, NewMessage(data)) + [Delivery(s, MessageSent(true, Field(data, "message_id")))]
  {
  }

  /**
   A private `typing` gives the recipient's open registered connection one
   typing event without a group id, and nobody else anything.
   */
  lemma TypingPrivate(st: State, s: ConnId, data: Payload, o: Outcome)
    requires Truthy(Field(data, "recipient_id"))
    requires o == HandleTyping(st, s, data)
    ensures o.next == st
    ensures forall c :: Received(o.out, c) ==
              if Lookup(st.connectedUsers, Field(data, "recipient_id")) == Some(c) && c in st.live
              then [UserTyping(Field(data, "userId"), Field(data, "username"), None, true)]
              else []
  {
  }

  /**
   A group `typing` gives every open connection except the sender exactly one
   typing event carrying the group id.
   */
  lemma TypingGroup(st: State, s: ConnId, data: Payload, o: Outcome)
    requires Valid(st)
    requires !Truthy(Field(data, "recipient_id")) && Truthy(Field(data, "group_id"))
    requires o == HandleTyping(st, s, data)
    ensures o.next == st
    ensures Received(o.out, s) == []
    ensures forall c :: Received(o.out, c) ==
              if c in st.live && c != s
              then [UserTyping(Field(data, "userId"), Field(data, "username"), Some(Field(data, "group_id")), true)]
              else []
  {
    var e := UserTyping(Field(data, "userId"), Field(data, "username"), Some(Field(data, "group_id")), true);
    forall c ensures Received(o.out, c) == if c in st.live && c != s then [e] else [] {
      ReceivedBroadcastExcept(st.live, s, e, c);
    }
  }

  /** A `typing` with neither field truthy delivers nothing. */
  lemma TypingUnaddressed(st: State, s: ConnId, data: Payload)
    requires !Truthy(Field(data, "recipient_id")) && !Truthy(Field(data, "group_id"))
    ensures HandleTyping(st, s, data) == Outcome(st, [])
  {
  }

  /** `task_created` and `task_updated` give every open connection the payload once, unchanged. */
  lemma TaskEventsRelayed(st: State, data: Payload)
    requires Valid(st)
    ensures HandleTaskCreated(st, data).next == st && HandleTaskUpdated(st, data).next == st
    ensures forall c :: Received(HandleTaskCreated(st, data).out, c) == if c in st.live then [NewTask(data)] else []
    ensures forall c :: Received(HandleTaskUpdated(st, data).out, c) == if c in st.live then [TaskUpdate(data)] else []
  {
    forall c
      ensures Received(HandleTaskCreated(st, data).out, c) == if c in st.live then [NewTask(data)] else []
      ensures Received(HandleTaskUpdated(st, data).out, c) == if c in st.live then [TaskUpdate(data)] else []
    {
      ReceivedBroadcast(st.live, NewTask(data), c);
      ReceivedBroadcast(st.live, TaskUpdate(data), c);
    }
  }

  // ---------------------------------------------------------------------------
  // Whole-server properties

  /**
   Every event keeps the state valid, and every delivery it makes is addressed
   to a connection that is open after the event.
   */
  lemma StepKeepsValid(st: State, s: ConnId, ev: Inbound)
    requires Valid(st) && Enabled(st, s, ev)
    ensures Valid(Step(st, s, ev).next)
    ensures AddressedWithin(Step(st, s, ev).out, Step(st, s, ev).next.live)
  {
  }

  /**
   Where `connectedUsers` sends user `u` after an event: to the sender after it
   announced `u`; nowhere after the close of a connection that had announced
   `u`, whichever connection `u` pointed to; unchanged after anything else.
   */
  lemma ResolveAfterStep(st: State, s: ConnId, ev: Inbound, u: JsValue)
    requires Enabled(st, s, ev)
    ensures Lookup(Step(st, s, ev).next.connectedUsers, u) ==
              if ev.UserConnected? && Field(ev.userData, "id") == u then Some(s)
              else if ev.Disconnect? && s in st.userSockets && Field(st.userSockets[s], "id") == u then None
              else Lookup(st.connectedUsers, u)
  {
  }

  /**
   Which data `userSockets` holds for connection `c` after an event: the data
   `c` just announced, nothing once `c` has closed, and otherwise what it held.
   */
  lemma SessionAfterStep(st: State, s: ConnId, ev: Inbound, c: ConnId)
    requires Enabled(st, s, ev)
    ensures Lookup(Step(st, s, ev).next.userSockets, c) ==
              if ev.UserConnected? && c == s then Some(ev.userData)
              else if ev.Disconnect? && c == s then None
              else Lookup(st.userSockets, c)
  {
  }
}
