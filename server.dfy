/**
 The connection handler of the signaling server: each inbound message from a
 socket is dispatched on its event name. `join` reads and updates the room
 table; the four relay handlers only read it.
 */
module Server {
  import opened Rooms
  import opened Protocol

  /** The room table after one message and the deliveries it caused. */
  datatype Reaction = Reaction(rooms: Table, out: set<Outgoing>)

  /** What handling one message from the socket `sender` does to the room table and who hears of it. */
  function Route(rooms: Table, sender: PeerId, msg: Message): (r: Reaction)
    ensures msg.JoinMsg? ==> sender in Members(r.rooms, msg.room)
    ensures msg.JoinMsg? ==> forall other :: other != msg.room ==> Members(r.rooms, other) == Members(rooms, other)
    ensures msg.JoinMsg? ==> Recipients(r.out) == {sender}
    ensures !msg.JoinMsg? ==> r.rooms == rooms
    ensures !msg.JoinMsg? ==> sender !in Recipients(r.out)
    ensures NoEmptyRooms(rooms) ==> NoEmptyRooms(r.rooms)
  {
    match msg
    case JoinMsg(room) => Reaction(AddMember(rooms, room, sender), JoinReplies(rooms, sender, room))
    case StartCallMsg(e) => Reaction(rooms, StartCallDeliveries(rooms, sender, e))
    case OfferMsg(e) => Reaction(rooms, OfferDeliveries(sender, e))
    case AnswerMsg(e) => Reaction(rooms, AnswerDeliveries(sender, e))
    case IceCandidateMsg(e) => Reaction(rooms, IceCandidateDeliveries(sender, e))
  }

  /** Offer, answer and ICE relays are decided without looking at the room table at all. */
  lemma RelaysIgnoreRoomTable(rooms1: Table, rooms2: Table, sender: PeerId, msg: Message)
    requires msg.OfferMsg? || msg.AnswerMsg? || msg.IceCandidateMsg?
    ensures Route(rooms1, sender, msg).out == Route(rooms2, sender, msg).out
  {
  }

  /** The server's process-wide room table together with the handlers that use it. */
  class Router {
    var rooms: Table

    ghost predicate Valid()
      reads this
    {
      NoEmptyRooms(rooms)
    }

    constructor ()
      ensures Valid() && rooms == map[]
    {
      rooms := map[];
    }

    /** The `join` handler: read the room's size, add the sender, reply to the sender alone. */
    method Join(sender: PeerId, room: RoomId) returns (out: set<Outgoing>)
      requires Valid()
      modifies this
      ensures Valid()
      ensures rooms == AddMember(old(rooms), room, sender)
      ensures out == JoinReplies(old(rooms), sender, room)
    {
      var members := if room in rooms then rooms[room] else {};
      var numberOfClients := |members|;
      if numberOfClients == 0 {
        rooms := rooms[room := members + {sender}];
        out := {Outgoing(RoomCreated, sender, RoomInfo(room, sender))};
      } else {
        rooms := rooms[room := members + {sender}];
        out := {Outgoing(RoomJoined, sender, RoomInfo(room, sender))};
      }
    }

    /** Dispatch of one inbound message to its handler; only `join` changes the table. */
    method Handle(sender: PeerId, msg: Message) returns (out: set<Outgoing>)
      requires Valid()
      modifies this
      ensures Valid()
      ensures Reaction(rooms, out) == Route(old(rooms), sender, msg)
      ensures !msg.JoinMsg? ==> rooms == old(rooms)
    {
      match msg
      case JoinMsg(room) => out := Join(sender, room);
      case StartCallMsg(e) => out := StartCallDeliveries(rooms, sender, e);
      case OfferMsg(e) => out := OfferDeliveries(sender, e);
      case AnswerMsg(e) => out := AnswerDeliveries(sender, e);
      case IceCandidateMsg(e) => out := IceCandidateDeliveries(sender, e);
    }
  }
}
