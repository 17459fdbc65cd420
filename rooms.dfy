/**
 The room table the signaling server keeps in memory: a room id maps to the
 set of peer (socket) ids that have joined it. Membership is a set, so a peer
 joining twice is recorded once.
 */
module Rooms {

  type RoomId = string
  type PeerId = string
  type Table = map<RoomId, set<PeerId>>

  /** The members of a room; a room with no entry has none. */
  function Members(rooms: Table, room: RoomId): set<PeerId>
  {
    if room in rooms then rooms[room] else {}
  }

  /** No entry of the table is an empty room (socket.io drops a room once its last member leaves). */
  predicate NoEmptyRooms(rooms: Table)
  {
    forall r :: r in rooms ==> rooms[r] != {}
  }

  /** The size the join handler reads, where a missing room counts as 0 members. */
  function MemberCount(rooms: Table, room: RoomId): (n: nat)
    ensures n == 0 <==> Members(rooms, room) == {}
    ensures room !in rooms ==> n == 0
    ensures NoEmptyRooms(rooms) ==> (n == 0 <==> room !in rooms)
  {
    |Members(rooms, room)|
  }

  /** `socket.join(room)`: the peer becomes a member of the room, created if absent. */
  function AddMember(rooms: Table, room: RoomId, peer: PeerId): (r: Table)
    ensures r.Keys == rooms.Keys + {room}
    ensures Members(r, room) == Members(rooms, room) + {peer}
    ensures forall other :: other != room ==> Members(r, other) == Members(rooms, other)
    ensures MemberCount(r, room) == MemberCount(rooms, room) + (if peer in Members(rooms, room) then 0 else 1)
    ensures NoEmptyRooms(rooms) ==> NoEmptyRooms(r)
  {
    var m := Members(rooms, room);
    assert peer in m ==> m + {peer} == m;
    rooms[room := m + {peer}]
  }
}
