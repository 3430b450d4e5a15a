/**
 Outbound events and the four ways the relay server addresses them.

 A handler's effect on the network is a sequence of deliveries, each one
 outbound event pushed to one connection. The targets the server can name are
 one connection through its room (`io.to(id).emit`), every open connection
 (`io.emit`), every open connection but the sender (`socket.broadcast.emit`)
 and the sender alone (`socket.emit`). Open connections are kept in the order
 in which they were accepted, which is the order in which socket.io walks them.
 */
module Delivery {
  import opened Json

  /** The id of one transport connection (a socket.io socket id). */
  type ConnId = nat

  datatype Status = Online | Offline

  /** The server-to-client events, with the fields the server puts in them. */
  datatype OutEvent =
    | UserStatusChange(userId: JsValue, username: JsValue, status: Status)
    | NewMessage(message: Payload)
    | MessageSent(success: bool, messageId: JsValue)
    | UserTyping(userId: JsValue, username: JsValue, groupId: Option<JsValue>, isTyping: bool)
    | NewTask(task: Payload)
    | TaskUpdate(task: Payload)

  /** One outbound event pushed to one connection. */
  datatype Delivery = Delivery(target: ConnId, event: OutEvent)

  /** No connection is listed twice. */
  predicate NoDup(conns: seq<ConnId>)
  {
    forall i, j :: 0 <= i < j < |conns| ==> conns[i] != conns[j]
  }

  /** The open connections once `s` has gone, in their original order. */
  function Without(conns: seq<ConnId>, s: ConnId): (r: seq<ConnId>)
    ensures forall c :: c in r <==> c in conns && c != s
    ensures NoDup(conns) ==> NoDup(r)
    ensures |r| <= |conns|
  {
    if conns == [] then []
    else if conns[0] == s then Without(conns[1..], s)
    else
      var rest := Without(conns[1..], s);
      assert NoDup(conns) ==> NoDup(conns[1..]) && conns[0] !in rest;
      [conns[0]] + rest
  }

  /** `io.emit(e)`: one delivery of `e` to each open connection, in order. */
  function Broadcast(live: seq<ConnId>, e: OutEvent): (r: seq<Delivery>)
    ensures |r| == |live|
    ensures forall i :: 0 <= i < |r| ==> r[i] == Delivery(live[i], e)
  {
    if live == [] then [] else [Delivery(live[0], e)] + Broadcast(live[1..], e)
  }

  /** `socket.broadcast.emit(e)`: `e` to every open connection except the sender. */
  function BroadcastExcept(live: seq<ConnId>, sender: ConnId, e: OutEvent): (r: seq<Delivery>)
    ensures forall d :: d in r ==> d.target in live && d.target != sender && d.event == e
  {
    Broadcast(Without(live, sender), e)
  }

  /**
   `io.to(c).emit(e)`: `e` to the members of the room named `c`. Each socket
   is alone in the room named by its own id, and a closed socket's room no
   longer exists, so the event reaches `c` when it is open and nobody otherwise.
   */
  function ToRoom(live: seq<ConnId>, c: ConnId, e: OutEvent): (r: seq<Delivery>)
    ensures r != [] <==> c in live
    ensures |r| <= 1 && forall d :: d in r ==> d == Delivery(c, e)
    ensures Received(r, c) == if c in live then [e] else []
    ensures forall x :: x != c ==> Received(r, x) == []
  {
    if c in live then [Delivery(c, e)] else []
  }

  /** `socket.emit(e)`: `e` to the sender's own connection. */
  function ToSender(sender: ConnId, e: OutEvent): (r: seq<Delivery>)
    ensures Received(r, sender) == [e]
    ensures forall c :: c != sender ==> Received(r, c) == []
  {
    [Delivery(sender, e)]
  }

  /** The events that connection `c` receives from `out`, in order. */
  function Received(out: seq<Delivery>, c: ConnId): seq<OutEvent>
  {
    if out == [] then []
    else (if out[0].target == c then [out[0].event] else []) + Received(out[1..], c)
  }

  /** Every delivery in `out` is addressed to one of `conns`. */
  predicate AddressedWithin(out: seq<Delivery>, conns: seq<ConnId>)
  {
    forall d :: d in out ==> d.target in conns
  }

  /** What a connection receives from two batches is what it receives from each, in order. */
  lemma {:induction false} ReceivedAppend(a: seq<Delivery>, b: seq<Delivery>, c: ConnId)
    ensures Received(a + b, c) == Received(a, c) + Received(b, c)
  {
    if a == [] {
      assert a + b == b;
    } else {
      var head := if a[0].target == c then [a[0].event] else [];
      assert (a + b)[0] == a[0];
      assert (a + b)[1..] == a[1..] + b;
      calc {
        Received(a + b, c);
        head + Received(a[1..] + b, c);
        { ReceivedAppend(a[1..], b, c); }
        head + (Received(a[1..], c) + Received(b, c));
        (head + Received(a[1..], c)) + Received(b, c);
        Received(a, c) + Received(b, c);
      }
    }
  }

  /** `io.emit` reaches each open connection exactly once and nobody else. */
  lemma {:induction false} ReceivedBroadcast(live: seq<ConnId>, e: OutEvent, c: ConnId)
    requires NoDup(live)
    ensures Received(Broadcast(live, e), c) == if c in live then [e] else []
  {
    if live != [] {
      var out := Broadcast(live, e);
      assert out[1..] == Broadcast(live[1..], e);
      assert NoDup(live[1..]);
      ReceivedBroadcast(live[1..], e, c);
      if live[0] == c {
        assert c !in live[1..];
      }
    }
  }

  /** `socket.broadcast.emit` reaches each open connection but the sender exactly once. */
  lemma ReceivedBroadcastExcept(live: seq<ConnId>, sender: ConnId, e: OutEvent, c: ConnId)
    requires NoDup(live)
    ensures Received(BroadcastExcept(live, sender, e), c) == if c in live && c != sender then [e] else []
  {
    ReceivedBroadcast(Without(live, sender), e, c);
  }
}
