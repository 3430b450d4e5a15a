/**
 The relay server as the process runs it: the two registry maps are mutated
 in place by the handlers registered in `io.on('connection', ...)`, and every
 emit appends deliveries to an outbox. socket.io keeps the set of open
 connections implicitly; here it is the field `live`, extended when a
 connection is accepted and shortened when it closes.

 Each method is proved to leave the state and the outbox exactly as the
 matching handler function of `Relay` prescribes, so the properties proved
 there hold of the object.
 */
module Server {
  import opened Json
  import opened Delivery
  import opened Relay

  class RelayServer {
    /** user id -> socket id */
    var connectedUsers: map<JsValue, ConnId>
    /** socket id -> the user data that socket announced */
    var userSockets: map<ConnId, Payload>
    /** the open connections, in the order they were accepted */
    var live: seq<ConnId>
    /** every delivery made so far, in emission order */
    var outbox: seq<Delivery>

    function Snapshot(): State
      reads this
    {
      State(connectedUsers, userSockets, live)
    }

    ghost predicate Valid()
      reads this
    {
      Relay.Valid(Snapshot())
    }

    /** A freshly started process: nobody connected, nothing sent. */
    constructor ()
      ensures Valid() && Snapshot() == Initial && outbox == []
    {
      connectedUsers := map[];
      userSockets := map[];
      live := [];
      outbox := [];
    }

    /** socket.io accepts connection `s` under a fresh id; the handlers below then run for it. */
    method OnConnection(s: ConnId)
      requires Valid() && s !in live
      modifies this
      ensures Valid()
      ensures Snapshot() == HandleConnect(old(Snapshot()), s).next
      ensures outbox == old(outbox)
    {
      live := live + [s];
    }

    method OnUserConnected(s: ConnId, userData: Payload)
      requires Valid() && s in live
      modifies this
      ensures Valid()
      ensures Lookup(connectedUsers, Field(userData, "id")) == Some(s) && Lookup(userSockets, s) == Some(userData)
      ensures Snapshot() == HandleUserConnected(old(Snapshot()), s, userData).next
      ensures outbox == old(outbox) + HandleUserConnected(old(Snapshot()), s, userData).out
    {
      var userId := Field(userData, "id");
      connectedUsers := connectedUsers[userId := s];
      userSockets := userSockets[s := userData];
      outbox := outbox + Broadcast(live, StatusOf(userData, Online));
    }

    method OnSendMessage(s: ConnId, data: Payload)
      requires Valid() && s in live
      modifies this
      ensures Valid() && Snapshot() == old(Snapshot())
      ensures outbox == old(outbox) + HandleSendMessage(old(Snapshot()), s, data).out
    {
      if Truthy(Field(data, "recipient_id")) {
        var recipient := Lookup(connectedUsers, Field(data, "recipient_id"));
        if recipient.Some? {
          outbox := outbox + ToRoom(live, recipient.value, NewMessage(data));
        }
        outbox := outbox + ToSender(s, MessageSent(true, Field(data, "message_id")));
      } else if Truthy(Field(data, "group_id")) {
        outbox := outbox + Broadcast(live, NewMessage(data));
        outbox := outbox + ToSender(s, MessageSent(true, Field(data, "message_id")));
      }
    }

    method OnTyping(s: ConnId, data: Payload)
      requires Valid() && s in live
      modifies this
      ensures Valid() && Snapshot() == old(Snapshot())
      ensures outbox == old(outbox) + HandleTyping(old(Snapshot()), s, data).out
    {
      if Truthy(Field(data, "recipient_id")) {
        var recipient := Lookup(connectedUsers, Field(data, "recipient_id"));
        if recipient.Some? {
          var e := UserTyping(Field(data, "userId"), Field(data, "username"), None, true);
          outbox := outbox + ToRoom(live, recipient.value, e);
        }
      } else if Truthy(Field(data, "group_id")) {
        var e := UserTyping(Field(data, "userId"), Field(data, "username"), Some(Field(data, "group_id")), true);
        outbox := outbox + BroadcastExcept(live, s, e);
      }
    }

    method OnTaskCreated(s: ConnId, data: Payload)
      requires Valid() && s in live
      modifies this
      ensures Valid() && Snapshot() == old(Snapshot())
      ensures outbox == old(outbox) + HandleTaskCreated(old(Snapshot()), data).out
    {
      outbox := outbox + Broadcast(live, NewTask(data));
    }

    method OnTaskUpdated(s: ConnId, data: Payload)
      requires Valid() && s in live
      modifies this
      ensures Valid() && Snapshot() == old(Snapshot())
      ensures outbox == old(outbox) + HandleTaskUpdated(old(Snapshot()), data).out
    {
      outbox := outbox + Broadcast(live, TaskUpdate(data));
    }

    /** The connection closes: socket.io drops it from the namespace, then runs the handler. */
    method OnDisconnect(s: ConnId)
      requires Valid() && s in live
      modifies this
      ensures Valid() && s !in live
      ensures Snapshot() == HandleDisconnect(old(Snapshot()), s).next
      ensures outbox == old(outbox) + HandleDisconnect(old(Snapshot()), s).out
    {
      live := Without(live, s);
      var userData := Lookup(userSockets, s);
      if userData.Some? {
        var userId := Field(userData.value, "id");
        connectedUsers := connectedUsers - {userId};
        userSockets := userSockets - {s};
        outbox := outbox + Broadcast(live, StatusOf(userData.value, Offline));
      }
    }

    /** Dispatch one inbound event from connection `s`. */
    method Handle(s: ConnId, ev: Inbound)
      requires Valid() && Enabled(Snapshot(), s, ev)
      modifies this
      ensures Valid()
      ensures Snapshot() == Step(old(Snapshot()), s, ev).next
      ensures outbox == old(outbox) + Step(old(Snapshot()), s, ev).out
    {
      match ev
      case Connect => OnConnection(s);
      case UserConnected(userData) => OnUserConnected(s, userData);
      case SendMessage(data) => OnSendMessage(s, data);
      case Typing(data) => OnTyping(s, data);
      case TaskCreated(data) => OnTaskCreated(s, data);
      case TaskUpdated(data) => OnTaskUpdated(s, data);
      case Disconnect => OnDisconnect(s);
    }
  }
}
