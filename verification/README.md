# CopaLink relay server, modelled in Dafny

This project models the real-time relay of CopaLink, a socket.io server
(`websocket/server.js`). The server keeps a connection registry of two
process-wide maps:
- `connectedUsers` maps a user id to a socket id.
- `userSockets` maps a socket id to the user data that socket announced.

Six handlers run for each connection:
- `user_connected` registers a user.
- `send_message`, `typing`, `task_created` and `task_updated` relay events to
  one connection, to every connection, or to every connection but the sender.
- `disconnect` unregisters the user.

The model has five modules:

- `Json` (json.dfy): payloads are JSON objects with scalar fields
  (`map<string, JsValue>`). Reading an absent field gives `undefined`.
  `Truthy` is JavaScript truthiness: `undefined`, `null`, `false`, `0` and `""`
  are falsy, so a `recipient_id` or `group_id` of `0` counts as absent.
  Registry keys compare as a JavaScript `Map` compares them: the number `2` and
  the string `"2"` are different users.
- `Delivery` (delivery.dfy): the outbound events and the four kinds of target:
  - `ToRoom` is `io.to(id).emit`;
  - `Broadcast` is `io.emit`;
  - `BroadcastExcept` is `socket.broadcast.emit`;
  - `ToSender` is `socket.emit`.

  `Received(out, c)` is the sequence of events that connection `c` receives
  from a batch of deliveries.
- `Relay` (relay.dfy): each handler as a function from the registry, the open
  connections, the sender and the payload to the next state and the
  deliveries. `Step` dispatches an inbound event to its handler. The lemmas
  state, for every connection, exactly which events it receives. They also
  state what each handler does to the two maps.
- `Traces` (traces.dfy): properties of several events in a row: registering
  twice, re-registration from a second socket, the disconnect of a superseded
  socket, and a two-user session.
- `Server` (server.dfy): the class `RelayServer`. Its fields are the two maps,
  the open connections `live` and an `outbox` of deliveries. It has one method
  per handler, and the methods update the maps in place as the source does.
  Each method is proved to leave the state and the outbox exactly as the
  matching `Relay` function says, so the lemmas about those functions hold of
  the object.

Four facts about socket.io are built into the model:
- socket.io tracks open connections implicitly. The model lists them in
  `live`, in the order they were accepted, which is the order in which
  `io.emit` reaches them.
- A socket is alone in the room named by its id. `io.to(id)` therefore reaches
  that socket while it is open, and nobody once it has closed.
- socket.io removes a closing socket from its namespace before it runs the
  `disconnect` handler. The "offline" broadcast therefore goes only to the
  connections that remain.
- Socket ids are non-empty strings. The `if (recipientSocketId)` tests
  (websocket/server.js:58, 78) are therefore presence tests, and `ConnId` is
  an opaque number.

Four behaviours of the code shape what the lemmas say:
- **Disconnect of a superseded socket.** Closing a socket deletes
  `connectedUsers[userData.id]` without checking which socket that entry names
  (websocket/server.js:113-114). When the user has since registered again from
  a newer socket, closing the older one unregisters the user although the newer
  socket is still open and still holds the user's data in `userSockets`.
  - Everyone, the newer socket included, is told the user is offline
    (`Traces.StaleDisconnectUnregistersCurrent`).
  - From then on, a private message to the user reaches nobody and only the
    sender's acknowledgement is delivered (`Traces.StaleUserUnreachable`).
  - A user therefore does not keep resolving to its latest socket until that
    socket closes. `Relay.ResolveAfterStep` states exactly when the entry of a
    user changes.
- **Announcing a second id from one socket.** A socket that announces id `u`
  and then a different id `v` keeps both `connectedUsers` entries, but its
  `userSockets` data now names only `v` (websocket/server.js:37-38). When it
  closes, only `v` is deleted (websocket/server.js:110-114). So `u` keeps
  pointing at a closed connection, and a private message to `u` reaches nobody
  (`Traces.TwoIdsOneSocket`). An entry of `connectedUsers` may thus name a
  closed connection, in this way or through the superseded-socket case above.
- **Addressing.** A truthy `recipient_id` wins over `group_id`. A message with
  neither field truthy gets no delivery and no acknowledgement
  (websocket/server.js:55-71).
- **Group scope.** Group messages and task events go to every open connection.
  The code does no group-membership filtering, and the model invents none.

## Model

| member | source | states |
|---|---|---|
| `Json.Truthy` | websocket/server.js:55-85 | the `recipient_id` and `group_id` tests of `send_message` and `typing`: exactly `undefined`, `null`, `false`, `0` and `""` are falsy; every other value is truthy |
| `Delivery.Broadcast` | websocket/server.js:43-47 | one delivery of the event per open connection, in connection order; `Delivery.ReceivedBroadcast` gives what each connection receives |
| `Delivery.BroadcastExcept` | websocket/server.js:86-91 | every delivery carries the event to an open connection other than the sender; `Delivery.ReceivedBroadcastExcept` gives what each connection receives |
| `Delivery.ToRoom` | websocket/server.js:58-60 | `io.to(id)` gives that connection the event exactly once if it is open and nothing if it has closed, and gives every other connection nothing |
| `Delivery.ToSender` | websocket/server.js:64-70 | `socket.emit` gives the sender the event exactly once and every other connection nothing |
| `Relay.HandleConnect` | websocket/server.js:30-31 | accepting a connection opens exactly that connection, keeps every open connection open, leaves both maps alone and delivers nothing |
| `Relay.HandleUserConnected` | websocket/server.js:34-48 | the announced id resolves to the sender and the sender's data is the announced data; the open connections are unchanged; there are as many deliveries as open connections, each the "online" event built from the announced `id` and `username` and each to an open connection; `Relay.UserConnectedRegisters` states that each open connection gets that event exactly once and that no other entry changes |
| `Relay.HandleSendMessage` | websocket/server.js:51-72 | the state is unchanged; something is delivered iff `recipient_id` or `group_id` is truthy; the last delivery is then the sender's acknowledgement and every earlier one carries the unmodified payload to an open connection; `Relay.SendMessagePrivate`, `Relay.SendMessageGroup` and `Relay.SendMessageUnaddressed` say who receives it |
| `Relay.HandleTyping` | websocket/server.js:75-93 | the state is unchanged; every delivery is a `user_typing` with `isTyping` true to an open connection, and without a truthy `recipient_id` none goes to the sender; `Relay.TypingPrivate`, `Relay.TypingGroup` and `Relay.TypingUnaddressed` say who receives it |
| `Relay.HandleTaskCreated` | websocket/server.js:96-100 | the state is unchanged and the i-th delivery carries the unmodified payload as `new_task` to the i-th open connection; `Relay.TaskEventsRelayed` states that each open connection receives it exactly once |
| `Relay.HandleTaskUpdated` | websocket/server.js:103-106 | the state is unchanged and the i-th delivery carries the unmodified payload as `task_update` to the i-th open connection; `Relay.TaskEventsRelayed` states that each open connection receives it exactly once |
| `Relay.HandleDisconnect` | websocket/server.js:109-128 | the socket is closed and has no user data; every other connection stays open; something is delivered iff the socket had announced a user and some connection remains; every delivery is the "offline" event built from the closing socket's data, sent to a remaining connection; `Relay.DisconnectRegistered` and `Relay.DisconnectUnknown` give the maps and what each connection receives |
| `Relay.Step` | websocket/server.js:30-129 | the four relaying events leave the state unchanged; a new connection changes no map and delivers nothing; every delivery goes to a connection open afterwards or to the sender |
| `Delivery.ReceivedBroadcast` | websocket/server.js:43-47 | `io.emit` gives each open connection the event exactly once and gives closed ones nothing |
| `Delivery.ReceivedBroadcastExcept` | websocket/server.js:86-91 | `socket.broadcast.emit` gives each open connection except the sender the event exactly once, and the sender nothing |
| `Relay.UserConnectedRegisters` | websocket/server.js:34-48 | `user_connected` maps the announced id to this socket and the socket to the data, leaves every other entry alone and sends exactly one "online" event to each open connection, whether or not the user was already registered |
| `Relay.DisconnectUnknown` | websocket/server.js:110-127 | closing a socket that never announced a user changes neither map and emits nothing |
| `Relay.DisconnectRegistered` | websocket/server.js:110-124 | closing a registered socket deletes its `userSockets` entry and the `connectedUsers` entry of its user id, whichever socket that entry names, and sends exactly one "offline" event to each remaining connection |
| `Relay.SendMessagePrivate` | websocket/server.js:55-65 | with a truthy `recipient_id`, whatever `group_id` holds: the unmodified payload goes only to the recipient's registered open socket, and to nobody otherwise; the sender gets exactly one `message_sent{success: true, messageId}`; the registry is unchanged |
| `Relay.SendMessageGroup` | websocket/server.js:67-71 | with only a truthy `group_id`: the unmodified payload goes to every open connection, the sender included; the sender then gets one acknowledgement |
| `Relay.SendMessageUnaddressed` | websocket/server.js:51-72 | a message with neither field truthy produces no delivery at all, not even an acknowledgement |
| `Relay.ZeroRecipientIsAbsent` | websocket/server.js:55-71 | `recipient_id: 0` is falsy, so such a message takes the group route |
| `Relay.TypingPrivate` | websocket/server.js:76-84 | a private `typing` gives one `user_typing{userId, username, isTyping: true}` without `groupId` to the recipient's registered open socket and nothing to anyone else |
| `Relay.TypingGroup` | websocket/server.js:85-92 | a group `typing` gives one `user_typing` carrying `groupId` to every open connection except the sender |
| `Relay.TypingUnaddressed` | websocket/server.js:75-93 | a `typing` with neither field truthy produces nothing |
| `Relay.TaskEventsRelayed` | websocket/server.js:96-106 | `task_created` and `task_updated` give every open connection the unchanged payload exactly once, as `new_task` and `task_update`, and leave the registry alone |
| `Relay.StepKeepsValid` | websocket/server.js:30-129 | every event keeps open connections distinct and `userSockets` limited to open sockets; every delivery goes to a connection that is open after the event |
| `Relay.ResolveAfterStep` | websocket/server.js:37-115 | after an event a user resolves to the sender if the sender just announced that id; to nothing if the closing socket had announced that id, whatever socket the entry named; otherwise as before |
| `Relay.SessionAfterStep` | websocket/server.js:37-115 | after an event a socket's user data is the data it just announced, nothing once it has closed, otherwise as before |
| `Traces.RunKeepsValid` | websocket/server.js:30-129 | any sequence of modelled events socket.io can deliver, every announcement carrying an object payload, keeps the registry invariant: open connections are distinct and only open connections have user data |
| `Traces.RegisterIdempotent` | websocket/server.js:37-38 | announcing the same data twice from the same socket leaves the maps exactly as one announcement does |
| `Traces.RegisterTwiceAnnouncesTwice` | websocket/server.js:43-47 | announcing the same data twice from the same socket gives every open connection two "online" events: there is no deduplication |
| `Traces.ReRegisterKeepsStaleEntry` | websocket/server.js:37-38 | re-registering a user from a second socket points the user at the second socket and leaves the first socket's `userSockets` entry in place |
| `Traces.StaleDisconnectUnregistersCurrent` | websocket/server.js:109-124 | when the superseded socket then closes, the user no longer resolves although the second socket is open and still holds the user's data, and that socket is told the user went offline |
| `Traces.UnregisteredRecipientUnreached` | websocket/server.js:55-65 | a private message to an unregistered user reaches nobody; the sender still gets exactly its acknowledgement |
| `Traces.StaleUserUnreachable` | websocket/server.js:55-114 | after that disconnect, a private message to the user from any open connection gives `new_message` to nobody, the still-open newer socket included, and gives the sender only its acknowledgement |
| `Traces.TwoIdsOneSocket` | websocket/server.js:37-114 | after one socket announces `u` and then a different `v` and closes, `v` no longer resolves but `u` still resolves to the closed socket, and a private message to `u` gives `new_message` to nobody and the sender only its acknowledgement |
| `Traces.KeysKeepTheirType` | websocket/server.js:37-60 | a user registered under the number 2 is not found by a message addressed to the string "2" |
| `Traces.TwoUsersRegister` | websocket/server.js:34-48 | after two connections open and announce users 1 and 2, each user resolves to its socket and the only deliveries are two "online" broadcasts |
| `Traces.FirstUserLeaves` | websocket/server.js:109-124 | when the first of them closes, user 1 loses both entries and the one remaining connection gets one "offline" event |
| `Traces.TwoUsersOneLeaves` | websocket/server.js:30-128 | in that session, user 1 no longer resolves, user 2 still resolves to its socket, and that socket has received "online" for 1, "online" for 2 and "offline" for 1, each exactly once |
| `Server.RelayServer.constructor` | websocket/server.js:18-19 | a new server has empty maps, no connections and no deliveries |
| `Server.RelayServer.OnConnection` | websocket/server.js:30 | accepting a connection adds it to the open connections and changes nothing else |
| `Server.RelayServer.OnUserConnected` | websocket/server.js:34-48 | the in-place `set` on both maps and the broadcast leave the object as `Relay.HandleUserConnected` prescribes |
| `Server.RelayServer.OnSendMessage` | websocket/server.js:51-72 | the maps are untouched and the outbox grows by the deliveries of `Relay.HandleSendMessage` |
| `Server.RelayServer.OnTyping` | websocket/server.js:75-93 | the maps are untouched and the outbox grows by the deliveries of `Relay.HandleTyping` |
| `Server.RelayServer.OnTaskCreated` | websocket/server.js:96-100 | the maps are untouched and the outbox grows by one `new_task` per open connection |
| `Server.RelayServer.OnTaskUpdated` | websocket/server.js:103-106 | the maps are untouched and the outbox grows by one `task_update` per open connection |
| `Server.RelayServer.OnDisconnect` | websocket/server.js:109-128 | the socket leaves the open connections, and the in-place `delete`s and the broadcast leave the object as `Relay.HandleDisconnect` prescribes |
| `Server.RelayServer.Handle` | websocket/server.js:30-129 | dispatching any inbound event keeps the invariant and matches `Relay.Step` |

## Left out

- The Express app, CORS, the `GET /` health route and `server.listen`
  (websocket/server.js:6-28, 131-138). These are HTTP and transport plumbing.
- Logging. The `console.log` calls are left out.
- Handlers that throw. The model covers only runs in which no handler throws.
  Some inputs make a handler throw:
  - the log call at websocket/server.js:52 reads `data.content.substring(0, 30)`
    before any routing, so a `send_message` whose `content` is missing or is
    not a string throws;
  - a payload that is `null` or `undefined` throws at its first property read
    (websocket/server.js:35, 52, 76, 97, 104).

  Nothing catches such an exception: socket.io runs the listener outside any
  `try`, and the server installs no `uncaughtException` handler. Node.js
  therefore ends the process, and both maps and every connection are lost
  with it.
- Payload shapes other than an object with scalar fields. Nested objects and
  arrays are not modelled. Neither are fractional numbers or `NaN`.
- Falsy scalar announcements. A client may send `user_connected` with the
  payload `0`, `false` or `""`. Reading `.id` from it does not throw, so
  `connectedUsers[undefined]` and `userSockets[socket.id]` are set
  (websocket/server.js:35-38). On close the `if (userData)` test at
  websocket/server.js:112 fails, so neither entry is deleted, and a closed
  connection keeps its user data. The model's announcements always carry an
  object. The invariant that only open connections have user data, and
  `Traces.RunKeepsValid` which proves it, therefore hold only for object
  payloads.
- How socket.io moves bytes. Serialization (which drops `undefined` fields),
  buffering and delivery failure are abstracted away. A delivery in the model
  is a hand-off to an open connection.
- Socket-id reuse. The model lets a new connection take any id that is not
  open, including the id of a connection that has closed. socket.io does not
  reuse ids here, since websocket/server.js:10-15 does not enable
  connection-state recovery. Allowing reuse only widens the set of event
  sequences that `Traces.RunKeepsValid` covers.
- Group membership and eviction of superseded sockets. The code has neither,
  so the model has neither.
- Heartbeats. The server adds no liveness check of its own. It keeps
  socket.io's default ping/pong (websocket/server.js:10-15), which closes a
  connection that stops answering. The model does not model timing. Such a
  close is a `Disconnect` event, which the model allows at any moment for any
  open connection.
- js/chats-db.js is not part of this model. It is browser glue: DOM rendering,
  HTTP polling and the socket.io client.
