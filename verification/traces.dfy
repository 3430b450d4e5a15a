/**
 Properties of runs of several events: re-registration, the disconnect of a
 superseded connection, and a two-user session.
 */
module Traces {
  import opened Json
  import opened Delivery
  import opened Relay

  /** Events from their connections, handled one after another; the deliveries are concatenated. */
  function Run(st: State, trace: seq<(ConnId, Inbound)>): Outcome
    decreases |trace|
  {
    if trace == [] then Outcome(st, [])
    else
      var first := Step(st, trace[0].0, trace[0].1);
      var rest := Run(first.next, trace[1..]);
      Outcome(rest.next, first.out + rest.out)
  }

  /** Every event of the trace comes from a connection socket.io would run it for. */
  predicate Admissible(st: State, trace: seq<(ConnId, Inbound)>)
    decreases |trace|
  {
    trace == [] ||
    (Enabled(st, trace[0].0, trace[0].1) && Admissible(Step(st, trace[0].0, trace[0].1).next, trace[1..]))
  }

  /** Any admissible run from a valid state ends in a valid state. */
  lemma {:induction false} RunKeepsValid(st: State, trace: seq<(ConnId, Inbound)>)
    requires Valid(st) && Admissible(st, trace)
    ensures Valid(Run(st, trace).next)
    decreases |trace|
  {
    if trace != [] {
      StepKeepsValid(st, trace[0].0, trace[0].1);
      RunKeepsValid(Step(st, trace[0].0, trace[0].1).next, trace[1..]);
    }
  }

  /** Two broadcasts of the same event reach each open connection twice. */
  lemma ReceivedBroadcastTwice(live: seq<ConnId>, e: OutEvent, c: ConnId)
    requires NoDup(live)
    ensures Received(Broadcast(live, e) + Broadcast(live, e), c) == if c in live then [e, e] else []
  {
    ReceivedAppend(Broadcast(live, e), Broadcast(live, e), c);
    ReceivedBroadcast(live, e, c);
  }

  /** Announcing the same data twice from the same connection leaves the state as one announcement does. */
  lemma RegisterIdempotent(st: State, s: ConnId, userData: Payload, once: Outcome, twice: Outcome)
    requires once == HandleUserConnected(st, s, userData)
    requires twice == HandleUserConnected(once.next, s, userData)
    ensures twice.next == once.next
  {
  }

  /** Announcing the same data twice from the same connection makes every open connection hear "online" twice. */
  lemma RegisterTwiceAnnouncesTwice(st: State, s: ConnId, userData: Payload, once: Outcome, twice: Outcome)
    requires Valid(st) && s in st.live
    requires once == HandleUserConnected(st, s, userData)
    requires twice == HandleUserConnected(once.next, s, userData)
    ensures forall c :: Received(once.out + twice.out, c) ==
              if c in st.live then [StatusOf(userData, Online), StatusOf(userData, Online)] else []
  {
    var e := StatusOf(userData, Online);
    assert once.out + twice.out == Broadcast(st.live, e) + Broadcast(st.live, e);
    forall c ensures Received(once.out + twice.out, c) == if c in st.live then [e, e] else [] {
      ReceivedBroadcastTwice(st.live, e, c);
    }
  }

  /**
   When user `u` announces itself again from a second connection, the user
   now resolves to the second connection, while the first keeps its stale
   entry in `userSockets`: nothing is deleted on registration.
   */
  lemma ReRegisterKeepsStaleEntry(st: State, s1: ConnId, s2: ConnId, ud1: Payload, ud2: Payload,
                                  o1: Outcome, o2: Outcome)
    requires Valid(st) && s1 in st.live && s2 in st.live && s1 != s2
    requires Field(ud1, "id") == Field(ud2, "id")
    requires o1 == HandleUserConnected(st, s1, ud1) && o2 == HandleUserConnected(o1.next, s2, ud2)
    ensures Lookup(o2.next.connectedUsers, Field(ud1, "id")) == Some(s2)
    ensures Lookup(o2.next.userSockets, s1) == Some(ud1)
    ensures Lookup(o2.next.userSockets, s2) == Some(ud2)
  {
  }

  /**
   If the superseded first connection then closes, the user is unregistered
   although the second connection is still open and still holds the user's
   data, and that connection is told the user went offline.
   `StaleUserUnreachable` below draws the consequence for private messages.
   */
  lemma StaleDisconnectUnregistersCurrent(st: State, s1: ConnId, s2: ConnId, ud1: Payload, ud2: Payload,
                                          o1: Outcome, o2: Outcome, o3: Outcome)
    requires Valid(st) && s1 in st.live && s2 in st.live && s1 != s2
    requires Field(ud1, "id") == Field(ud2, "id")
    requires o1 == HandleUserConnected(st, s1, ud1) && o2 == HandleUserConnected(o1.next, s2, ud2)
    requires o3 == HandleDisconnect(o2.next, s1)
    ensures Lookup(o3.next.connectedUsers, Field(ud1, "id")) == None
    ensures s2 in o3.next.live && Lookup(o3.next.userSockets, s2) == Some(ud2)
    ensures Received(o3.out, s2) == [StatusOf(ud1, Offline)]
  {
    assert o2.next.live == st.live && o2.next.userSockets[s1] == ud1;
    var rest := Without(st.live, s1);
    assert o3.next.live == rest && s2 in rest;
    assert o3.out == Broadcast(rest, StatusOf(ud1, Offline));
    ReceivedBroadcast(rest, StatusOf(ud1, Offline), s2);
  }

  /** A private message to a user who has no `connectedUsers` entry gives `new_message` to nobody. */
  lemma UnregisteredRecipientUnreached(st: State, s: ConnId, data: Payload, c: ConnId)
    requires Truthy(Field(data, "recipient_id")) && Field(data, "recipient_id") !in st.connectedUsers
    ensures Received(HandleSendMessage(st, s, data).out, c) ==
              if c == s then [MessageSent(true, Field(data, "message_id"))] else []
  {
  }

  /**
   After the stale disconnect, a private message to the user from any open
   connection reaches nobody: the second connection, still open and still
   holding the user's data, gets no `new_message`, and the sender gets only
   its `message_sent` acknowledgement.
   */
  lemma StaleUserUnreachable(st: State, s1: ConnId, s2: ConnId, ud1: Payload, ud2: Payload,
                             o1: Outcome, o2: Outcome, o3: Outcome, sender: ConnId, data: Payload, c: ConnId)
    requires Valid(st) && s1 in st.live && s2 in st.live && s1 != s2
    requires Field(ud1, "id") == Field(ud2, "id") && Truthy(Field(ud1, "id"))
    requires o1 == HandleUserConnected(st, s1, ud1) && o2 == HandleUserConnected(o1.next, s2, ud2)
    requires o3 == HandleDisconnect(o2.next, s1)
    requires sender in o3.next.live && Field(data, "recipient_id") == Field(ud1, "id")
    ensures Received(HandleSendMessage(o3.next, sender, data).out, c) ==
              if c == sender then [MessageSent(true, Field(data, "message_id"))] else []
  {
    StaleDisconnectUnregistersCurrent(st, s1, s2, ud1, ud2, o1, o2, o3);
    assert Field(data, "recipient_id") !in o3.next.connectedUsers;
    UnregisteredRecipientUnreached(o3.next, sender, data, c);
  }

  /**
   A connection that announces id `u` and then a different id `v` leaves `u`
   pointing at itself. Closing it deletes only the entry of `v`, the id its
   stored data now carries, so `u` keeps resolving to a closed connection, and a
   private message to `u` gives `new_message` to nobody.
   */
  lemma TwoIdsOneSocket(st: State, s: ConnId, udU: Payload, udV: Payload, o1: Outcome, o2: Outcome, o3: Outcome,
                        sender: ConnId, data: Payload, c: ConnId)
    requires Valid(st) && s in st.live && Field(udU, "id") != Field(udV, "id")
    requires o1 == HandleUserConnected(st, s, udU) && o2 == HandleUserConnected(o1.next, s, udV)
    requires o3 == HandleDisconnect(o2.next, s)
    requires Truthy(Field(data, "recipient_id")) && Field(data, "recipient_id") == Field(udU, "id")
    ensures s !in o3.next.live && Lookup(o3.next.connectedUsers, Field(udU, "id")) == Some(s)
    ensures Lookup(o3.next.connectedUsers, Field(udV, "id")) == None
    ensures Received(HandleSendMessage(o3.next, sender, data).out, c) ==
              if c == sender then [MessageSent(true, Field(data, "message_id"))] else []
  {
    assert o2.next.userSockets[s] == udV && o2.next.live == st.live;
    var next := o3.next;
    assert next.connectedUsers == o2.next.connectedUsers - {Field(udV, "id")};
    assert Lookup(next.connectedUsers, Field(udU, "id")) == Some(s);
    assert s !in next.live;
    var out := HandleSendMessage(next, sender, data).out;
    var ack := [Delivery(sender, MessageSent(true, Field(data, "message_id")))];
    assert out == ToRoom(next.live, s, NewMessage(data)) + ack;
    assert out == ack;
  }

  /**
   Map keys keep their JSON type: a user announced with the numeric id 2 is
   not found by a message addressed to the string "2".
   */
  lemma KeysKeepTheirType(st: State, s: ConnId, data: Payload, c: ConnId)
    requires Valid(st) && s in st.live
    requires st.connectedUsers == map[Num(2) := c] && c in st.live && c != s
    requires "recipient_id" in data && data["recipient_id"] == Str("2")
    ensures Received(HandleSendMessage(st, s, data).out, c) == []
  {
  }

  /** Two users announce themselves from connections `a` and `b`. */
  lemma TwoUsersRegister(a: ConnId, b: ConnId, udA: Payload, udB: Payload,
                         o1: Outcome, o2: Outcome, o3: Outcome, o4: Outcome)
    requires a != b
    requires Field(udA, "id") == Num(1) && Field(udB, "id") == Num(2)
    requires o1 == Step(Initial, a, Connect) && o2 == Step(o1.next, b, Connect)
    requires o3 == Step(o2.next, a, UserConnected(udA)) && o4 == Step(o3.next, b, UserConnected(udB))
    ensures o4.next == State(map[Num(1) := a, Num(2) := b], map[a := udA, b := udB], [a, b])
    ensures o1.out + o2.out + o3.out + o4.out ==
              Broadcast([a, b], StatusOf(udA, Online)) + Broadcast([a, b], StatusOf(udB, Online))
  {
  }

  /** Then connection `a` closes. */
  lemma FirstUserLeaves(a: ConnId, b: ConnId, udA: Payload, udB: Payload, st: State, o5: Outcome)
    requires a != b
    requires Field(udA, "id") == Num(1) && Field(udB, "id") == Num(2)
    requires st == State(map[Num(1) := a, Num(2) := b], map[a := udA, b := udB], [a, b])
    requires o5 == Step(st, a, Disconnect)
    ensures o5.next == State(map[Num(2) := b], map[b := udB], [b])
    ensures o5.out == Broadcast([b], StatusOf(udA, Offline))
  {
    assert Without([a, b], a) == [b] by {
      assert [a, b][1..] == [b] && [b][1..] == [];
      assert Without([], a) == [];
      assert Without([b], a) == [b];
    }
    assert map[Num(1) := a, Num(2) := b] - {Num(1)} == map[Num(2) := b];
    assert map[a := udA, b := udB] - {a} == map[b := udB];
  }

  /** What connection `b` receives from two announcements over `[a, b]` followed by one over `[b]`. */
  lemma {:induction false} ReceivedTwoUpOneDown(a: ConnId, b: ConnId, upA: OutEvent, upB: OutEvent, downA: OutEvent,
                                                 ups: seq<Delivery>, downs: seq<Delivery>)
    requires a != b
    requires ups == Broadcast([a, b], upA) + Broadcast([a, b], upB) && downs == Broadcast([b], downA)
    ensures Received(ups + downs, b) == [upA, upB, downA]
  {
    var b1, b2 := Broadcast([a, b], upA), Broadcast([a, b], upB);
    assert NoDup([a, b]) && NoDup([b]);
    ReceivedBroadcast([a, b], upA, b);
    ReceivedBroadcast([a, b], upB, b);
    ReceivedBroadcast([b], downA, b);
    calc {
      Received(ups + downs, b);
      { ReceivedAppend(b1 + b2, downs, b); }
      Received(b1 + b2, b) + Received(downs, b);
      { ReceivedAppend(b1, b2, b); }
      Received(b1, b) + Received(b2, b) + Received(downs, b);
      [upA] + [upB] + [downA];
    }
  }

  /**
   Two users register from connections `a` and `b`, then `a` closes. User 1
   no longer resolves, user 2 still resolves to `b`, and `b` has heard each
   user come online and user 1 go offline exactly once.
   */
  lemma TwoUsersOneLeaves(a: ConnId, b: ConnId, udA: Payload, udB: Payload,
                          o1: Outcome, o2: Outcome, o3: Outcome, o4: Outcome, o5: Outcome)
    requires a != b
    requires Field(udA, "id") == Num(1) && Field(udB, "id") == Num(2)
    requires o1 == Step(Initial, a, Connect) && o2 == Step(o1.next, b, Connect)
    requires o3 == Step(o2.next, a, UserConnected(udA)) && o4 == Step(o3.next, b, UserConnected(udB))
    requires o5 == Step(o4.next, a, Disconnect)
    ensures Lookup(o5.next.connectedUsers, Num(1)) == None
    ensures Lookup(o5.next.connectedUsers, Num(2)) == Some(b)
    ensures o5.next.live == [b]
    ensures Received(o1.out + o2.out + o3.out + o4.out + o5.out, b) ==
              [StatusOf(udA, Online), StatusOf(udB, Online), StatusOf(udA, Offline)]
  {
    TwoUsersRegister(a, b, udA, udB, o1, o2, o3, o4);
    FirstUserLeaves(a, b, udA, udB, o4.next, o5);
    ReceivedTwoUpOneDown(a, b, StatusOf(udA, Online), StatusOf(udB, Online), StatusOf(udA, Offline),
                         o1.out + o2.out + o3.out + o4.out, o5.out);
  }
}
