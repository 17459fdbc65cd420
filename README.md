# Signaling router of a WebRTC meeting server

This project models the socket.io connection handler of a small WebRTC
signaling server. The server keeps one in-memory room table, which maps a
room id to the set of socket ids that joined it. It answers five inbound
events:

- `join{room}` reads the room's current size, where a missing room counts as
  0. It adds the sending socket to the room. It then replies to that socket
  alone: `room_created{roomId, peerId}` if the room was empty, otherwise
  `room_joined{roomId, peerId}`.
- `start_call{roomId, senderId}` sends `start_call{senderId}` to every
  member of `roomId` except the sending socket.
- `webrtc_offer` and `webrtc_answer` send `{sdp, senderId}` to
  `receiverId` only.
- `webrtc_ice_candidate` forwards the whole inbound event, unchanged, to
  `receiverId` only.

The relays never check room membership, and they never touch the table.

Files and modules:

- `rooms.dfy`, module `Rooms`: the room table, holding the member count
  read by `join` and the `socket.join` update.
- `protocol.dfy`, module `Protocol`: the inbound message catalogue as a
  tagged union, the outbound payloads and event names, and one pure
  function per handler giving its set of deliveries. A delivery is an event
  name, a recipient and a payload.
- `server.dfy`, module `Server`: `Route`, which says what one message does
  to the table and who hears of it. It also holds the class `Router`, which
  owns the table as a mutable field: `Join` updates it in place, and
  `Handle` dispatches an inbound message to its handler.
- `history.dfy`, module `History`: handlers run one event at a time on
  Node's event loop, so a run is a sequence of steps. This module proves
  facts about whole runs. A room holds exactly the sockets that joined it.
  A `join` gets `room_created` exactly when it is the first join of that
  room. No room ever gets two `room_created`.

Modelling decisions:

- The sending socket's id (`socket.id`) and the client-supplied
  `event.senderId` are separate values. Broadcasts exclude the socket.
  Payloads carry `event.senderId`. `join` replies carry `socket.id`.
- The model treats a relay target as the single socket it names. So
  `socket.broadcast.to(event.receiverId)` reaches `{receiverId} - {sender}`.
  `Protocol.Broadcast` models this. This is a simplification: in socket.io
  the target is the room named `receiverId` (see "## Left out").
- Inbound JSON fields the server never reads are kept in `extra`. This
  shows one difference in the model: `webrtc_ice_candidate` passes them on,
  while `start_call`, `webrtc_offer` and `webrtc_answer` drop them.
- A socket may join several rooms. Nothing in `server.js` prevents it, so
  the model allows it too.

## Model

| member | source | states |
|---|---|---|
| `Rooms.MemberCount` | server.js:28-29 | An absent room counts as 0. The count is 0 exactly when the room has no members. While the table has no empty entries, the count is 0 exactly when the room is absent. |
| `Rooms.AddMember` | server.js:39 | After `socket.join` (also line 48) the sender is a member. The room exists. The other members are unchanged, and no other room changes. The count grows by 1, or by 0 if the sender was already a member. No empty room is created. |
| `Protocol.WireNamesDistinct` | server.js:40-92 | The six outbound event names (`room_created` … `webrtc_ice_candidate`) are pairwise distinct. |
| `Protocol.EmitToSelf` | server.js:40-52 | `socket.emit` sends exactly one event, to the sending socket only, with the given name and payload. |
| `Protocol.Broadcast` | server.js:61-63 | `socket.broadcast.to(t).emit` reaches exactly the members of `t` other than the sending socket. Each gets one delivery carrying the given name and payload. |
| `Protocol.OneDeliveryPerRecipient` | server.js:61-63 | Sending one event to each peer of a set makes exactly as many distinct deliveries as there are peers. |
| `Protocol.JoinReplies` | server.js:34-53 | `join` produces exactly one delivery, to the sender only, with payload `{roomId, peerId = sender}`. Its name is `room_created` when the room's count before the join is 0, else `room_joined`. Existing members receive nothing. |
| `Protocol.StartCallDeliveries` | server.js:56-63 | `start_call` reaches every member of `event.roomId` except the sending socket, and no one else. It makes one delivery per recipient, and the payload is exactly `{senderId: event.senderId}`. |
| `Protocol.OfferDeliveries` | server.js:66-75 | `webrtc_offer` reaches `receiverId` only, never the sending socket, at most once. The payload is exactly `{sdp, senderId}`. |
| `Protocol.AnswerDeliveries` | server.js:77-85 | `webrtc_answer` reaches `receiverId` only, never the sending socket, at most once. The payload is exactly `{sdp, senderId}`. |
| `Protocol.IceCandidateDeliveries` | server.js:87-93 | `webrtc_ice_candidate` reaches `receiverId` only, never the sending socket. The payload is the whole inbound event, unchanged. |
| `Server.Route` | server.js:24-94 | After `join` the sender is in the room, no other room changes, and only the sender is addressed. The relay handlers leave the room table unchanged and never address the sending socket. No handler creates an empty room entry. |
| `Server.RelaysIgnoreRoomTable` | server.js:66-93 | The deliveries of offer, answer and ICE relays do not depend on the room table. No membership check is made on either peer. |
| `Server.Router.constructor` | server.js:16-20 | The socket.io adapter's room table starts empty. |
| `Server.Router.Join` | server.js:26-54 | The `join` handler reads the count before adding the sender. It updates the table as `AddMember` does and returns the `JoinReplies` deliveries. |
| `Server.Router.Handle` | server.js:24-94 | Dispatching a message updates the table and returns deliveries exactly as `Route` says. The table is unchanged for every message other than `join`. |
| `History.Run` | server.js:24-94 | Handling a sequence of messages one at a time never removes a room and never creates an empty one. |
| `History.RunMembers` | server.js:39-48 | After any run, a room holds exactly its initial members plus every socket that sent `join` for it. |
| `History.FirstJoinerCreates` | server.js:28-53 | In a run where the room starts empty, the reply to a `join` is `room_created` exactly when no earlier step joined that room, and `room_joined` otherwise. Either way it goes to that joiner only. |
| `History.OneCreatorPerRoom` | server.js:35-43 | Serialized joins never produce two `room_created` for the same room. |
| `History.TwoJoinsOneCreator` | server.js:35-53 | Two joins of an empty room, in either order, give one `room_created` to the first and one `room_joined` to the second. |
| `History.CallSetupScenario` | server.js:26-85 | Peers A and B are distinct. A creates room "abc" and B joins it. A's `start_call` reaches B alone. B's `webrtc_answer{receiverId: A, sdp: "x"}` reaches A alone as `{sdp: "x", senderId: B}`. |

## Left out

- TLS key and certificate loading, the HTTPS server and `server.listen`
  (server.js:1-14, 96). These are I/O and configuration.
- The options of the socket.io server (the CORS setting, server.js:17-19)
  and the error logger (server.js:22), and every `console.log` /
  `console.dir` call. These are library configuration and logging. Of the
  construction at server.js:16-20 the model keeps only the adapter's room
  table, which starts empty.
- Removing a socket from its rooms on disconnect. socket.io does this
  itself; no line of `server.js` does it, so the model has no leave
  operation. The table therefore only grows in the model.
- Malformed messages. Inbound events are typed, so a missing field (which
  JavaScript reads as `undefined` and relays as such) is not modelled.
- The room lookup `io.sockets.adapter.rooms[roomId]` is modelled with its
  intended meaning, the size of the room. In socket.io 3 and later
  `io.sockets.adapter.rooms` itself is a `Map`. Bracket access on a `Map`
  yields `undefined`, so the `|| { length: 0 }` fallback applies and every
  join reads 0 and answers `room_created`. That library-version behaviour is
  not modelled.
- Rooms named after socket ids. socket.io puts every socket in a room named
  after its own id, and room ids and socket ids share one namespace. The
  model's table holds only rooms made by `join`, and relays go to the one
  socket named. So these cases are not modelled:
  - a `join` for a connected socket's id, including the sender's own id. In
    socket.io that room already has a member, so the reply is `room_joined`;
    the model replies `room_created`.
  - a `start_call` whose `roomId` is a socket id. In socket.io it reaches
    that socket; the model reaches nobody unless that id was joined as a
    room.
  - a relay whose `receiverId` is a room made by `join`. In socket.io it
    reaches every member of that room except the sender; the model reaches
    only a socket with that id.
- Concurrency. Node runs one handler at a time, so each handler is atomic in
  the model and runs are sequences.
- Delivery itself (transport, at-most-once, dropped messages to absent
  receivers). A delivery to a socket id that is not connected is still
  listed as a delivery.
- front/src/router/index.js and front/tailwind.config.js are UI route and
  style configuration with no logic, and are not part of this model.
