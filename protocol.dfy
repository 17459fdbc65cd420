/**
 The message catalogue of the signaling server and the deliveries each
 handler produces. A delivery is an event name, the peer it is addressed to
 and the payload object sent with it.
 */
module Protocol {
  import opened Rooms

  /** Session description text; the server never looks inside it. */
  type Sdp = string

  /** Further fields of an inbound JSON object that the server does not read. */
  type Fields = map<string, string>

  /** The outbound event names. */
  datatype EventName =
    | RoomCreated
    | RoomJoined
    | StartCall
    | WebrtcOffer
    | WebrtcAnswer
    | WebrtcIceCandidate

  /** The name each event carries on the wire. */
  function Wire(name: EventName): string
  {
    match name
    case RoomCreated => "room_created"
    case RoomJoined => "room_joined"
    case StartCall => "start_call"
    case WebrtcOffer => "webrtc_offer"
    case WebrtcAnswer => "webrtc_answer"
    case WebrtcIceCandidate => "webrtc_ice_candidate"
  }

  /** Two different events never share a wire name. */
  lemma WireNamesDistinct(a: EventName, b: EventName)
    ensures Wire(a) == Wire(b) <==> a == b
  {
  }

  /** Inbound `start_call{roomId, senderId}`. */
  datatype StartCallEvent = StartCallEvent(roomId: RoomId, senderId: PeerId, extra: Fields)

  /** Inbound `webrtc_offer` / `webrtc_answer{roomId, senderId, receiverId, sdp}`. */
  datatype SdpEvent = SdpEvent(roomId: RoomId, senderId: PeerId, receiverId: PeerId, sdp: Sdp, extra: Fields)

  /** Inbound `webrtc_ice_candidate{roomId, senderId, receiverId, ...}`; the candidate travels in `extra`. */
  datatype IceEvent = IceEvent(roomId: RoomId, senderId: PeerId, receiverId: PeerId, extra: Fields)

  /** One inbound message, tagged by the event it arrived on. */
  datatype Message =
    | JoinMsg(room: RoomId)
    | StartCallMsg(call: StartCallEvent)
    | OfferMsg(offer: SdpEvent)
    | AnswerMsg(answer: SdpEvent)
    | IceCandidateMsg(ice: IceEvent)

  /** The payload objects the server emits. */
  datatype Payload =
    | RoomInfo(roomId: RoomId, peerId: PeerId)     // room_created, room_joined
    | CallerInfo(senderId: PeerId)                 // start_call
    | Description(sdp: Sdp, senderId: PeerId)      // webrtc_offer, webrtc_answer
    | Forwarded(event: IceEvent)                   // webrtc_ice_candidate: the inbound event itself

  datatype Outgoing = Outgoing(event: EventName, to: PeerId, payload: Payload)

  /** Everyone a set of deliveries reaches. */
  function Recipients(out: set<Outgoing>): set<PeerId>
  {
    set d | d in out :: d.to
  }

  /** `socket.emit(name, payload)`: one event to the sending socket only. */
  function EmitToSelf(sender: PeerId, name: EventName, payload: Payload): (out: set<Outgoing>)
    ensures Recipients(out) == {sender} && |out| == 1
    ensures forall d | d in out :: d.to == sender && d.event == name && d.payload == payload
  {
    {Outgoing(name, sender, payload)}
  }

  /**
   `socket.broadcast.to(target).emit(name, payload)`: one event to every socket
   in the target room except the sending one. A peer id used as a target names
   the room socket.io keeps for that single socket, so `targets` is then
   `{receiverId}`.
   */
  function Broadcast(targets: set<PeerId>, sender: PeerId, name: EventName, payload: Payload): (out: set<Outgoing>)
    ensures Recipients(out) == targets - {sender}
    ensures |out| == |targets - {sender}|
    ensures forall d | d in out :: d.to in targets && d.to != sender && d.event == name && d.payload == payload
  {
    OneDeliveryPerRecipient(targets - {sender}, name, payload);
    var out := set m | m in targets - {sender} :: Outgoing(name, m, payload);
    assert forall m | m in targets - {sender} :: Outgoing(name, m, payload) in out;
    out
  }

  /** Sending the same event to each peer of a set makes one distinct delivery per peer. */
  lemma {:induction false} OneDeliveryPerRecipient(peers: set<PeerId>, name: EventName, payload: Payload)
    ensures |set m | m in peers :: Outgoing(name, m, payload)| == |peers|
    decreases |peers|
  {
    if peers != {} {
      var x :| x in peers;
      var rest := peers - {x};
      OneDeliveryPerRecipient(rest, name, payload);
      var restOut := set m | m in rest :: Outgoing(name, m, payload);
      assert (set m | m in peers :: Outgoing(name, m, payload)) == restOut + {Outgoing(name, x, payload)};
      assert Outgoing(name, x, payload) !in restOut;
    }
  }

  /** The `join` reply: `room_created` when the room was empty before the join, else `room_joined`, to the sender only. */
  function JoinReplies(rooms: Table, sender: PeerId, room: RoomId): (out: set<Outgoing>)
    ensures Recipients(out) == {sender} && |out| == 1
    ensures forall d | d in out :: d.payload == RoomInfo(room, sender)
    ensures forall d | d in out :: d.event in {RoomCreated, RoomJoined}
    ensures forall d | d in out :: d.event == RoomCreated <==> MemberCount(rooms, room) == 0
  {
    var name := if MemberCount(rooms, room) == 0 then RoomCreated else RoomJoined;
    EmitToSelf(sender, name, RoomInfo(room, sender))
  }

  /** `start_call`: `{senderId}` to every member of the named room other than the sending socket. */
  function StartCallDeliveries(rooms: Table, sender: PeerId, e: StartCallEvent): (out: set<Outgoing>)
    ensures Recipients(out) == Members(rooms, e.roomId) - {sender}
    ensures |out| == |Members(rooms, e.roomId) - {sender}|
    ensures forall d | d in out :: d.event == StartCall && d.payload == CallerInfo(e.senderId)
  {
    Broadcast(Members(rooms, e.roomId), sender, StartCall, CallerInfo(e.senderId))
  }

  /** `webrtc_offer`: `{sdp, senderId}` to the named receiver only, never back to the sending socket. */
  function OfferDeliveries(sender: PeerId, e: SdpEvent): (out: set<Outgoing>)
    ensures Recipients(out) == {e.receiverId} - {sender}
    ensures |out| == (if e.receiverId == sender then 0 else 1)
    ensures forall d | d in out :: d.event == WebrtcOffer && d.payload == Description(e.sdp, e.senderId)
  {
    Broadcast({e.receiverId}, sender, WebrtcOffer, Description(e.sdp, e.senderId))
  }

  /** `webrtc_answer`: `{sdp, senderId}` to the named receiver only, never back to the sending socket. */
  function AnswerDeliveries(sender: PeerId, e: SdpEvent): (out: set<Outgoing>)
    ensures Recipients(out) == {e.receiverId} - {sender}
    ensures |out| == (if e.receiverId == sender then 0 else 1)
    ensures forall d | d in out :: d.event == WebrtcAnswer && d.payload == Description(e.sdp, e.senderId)
  {
    Broadcast({e.receiverId}, sender, WebrtcAnswer, Description(e.sdp, e.senderId))
  }

  /** `webrtc_ice_candidate`: the whole inbound event, unchanged, to the named receiver only. */
  function IceCandidateDeliveries(sender: PeerId, e: IceEvent): (out: set<Outgoing>)
    ensures Recipients(out) == {e.receiverId} - {sender}
    ensures |out| == (if e.receiverId == sender then 0 else 1)
    ensures forall d | d in out :: d.event == WebrtcIceCandidate && d.payload == Forwarded(e)
  {
    Broadcast({e.receiverId}, sender, WebrtcIceCandidate, Forwarded(e))
  }
}
