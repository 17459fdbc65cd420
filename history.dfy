/**
 Histories: the server handles one event at a time, so any run is a sequence
 of (socket, message) steps applied in order. These lemmas state what the
 router guarantees over a whole run, not just one call.
 */
module History {
  import opened Rooms
  import opened Protocol
  import opened Server

  datatype Step = Step(sender: PeerId, msg: Message)

  /** The room table after handling `steps` in order, starting from `rooms`. */
  function Run(rooms: Table, steps: seq<Step>): (r: Table)
    ensures NoEmptyRooms(rooms) ==> NoEmptyRooms(r)
    ensures rooms.Keys <= r.Keys
    decreases |steps|
  {
    if steps == [] then rooms
    else
      var last := steps[|steps| - 1];
      Route(Run(rooms, steps[..|steps| - 1]), last.sender, last.msg).rooms
  }

  /** The deliveries caused by step `i` of a run. */
  function ReplyAt(rooms: Table, steps: seq<Step>, i: nat): set<Outgoing>
    requires i < |steps|
  {
    Route(Run(rooms, steps[..i]), steps[i].sender, steps[i].msg).out
  }

  /** Every socket that sent `join` for `room` somewhere in `steps`. */
  function Joiners(steps: seq<Step>, room: RoomId): set<PeerId>
  {
    set i | 0 <= i < |steps| && steps[i].msg == JoinMsg(room) :: steps[i].sender
  }

  /** One step adds its sender to `room` exactly when it is a `join` for `room`. */
  function Added(step: Step, room: RoomId): set<PeerId>
  {
    if step.msg == JoinMsg(room) then {step.sender} else {}
  }

  /** The joiners of a run are those of its prefix plus whoever the last step adds. */
  lemma JoinersSnoc(steps: seq<Step>, room: RoomId)
    requires steps != []
    ensures Joiners(steps, room) == Joiners(steps[..|steps| - 1], room) + Added(steps[|steps| - 1], room)
  {
  }

  /** Handling one step changes the members of `room` by exactly what the step adds. */
  lemma StepMembers(rooms: Table, step: Step, room: RoomId)
    ensures Members(Route(rooms, step.sender, step.msg).rooms, room) == Members(rooms, room) + Added(step, room)
  {
  }

  /** After a run, a room holds exactly the members it started with plus every socket that joined it. */
  lemma {:induction false} RunMembers(rooms: Table, steps: seq<Step>, room: RoomId)
    ensures Members(Run(rooms, steps), room) == Members(rooms, room) + Joiners(steps, room)
    decreases |steps|
  {
    if steps != [] {
      var n := |steps| - 1;
      RunMembers(rooms, steps[..n], room);
      JoinersSnoc(steps, room);
      StepMembers(Run(rooms, steps[..n]), steps[n], room);
    }
  }

  /** Before step `i`, a room holds its initial members plus the joiners so far, and there are none exactly when no earlier step joined it. */
  lemma NoJoinerIsEmpty(rooms: Table, steps: seq<Step>, i: nat, room: RoomId)
    requires i <= |steps|
    ensures Members(Run(rooms, steps[..i]), room) == Members(rooms, room) + Joiners(steps[..i], room)
    ensures Joiners(steps[..i], room) == {} <==> forall j :: 0 <= j < i ==> steps[j].msg != JoinMsg(room)
  {
    RunMembers(rooms, steps[..i], room);
    forall j | 0 <= j < i && steps[j].msg == JoinMsg(room) ensures steps[j].sender in Joiners(steps[..i], room) {
      assert steps[..i][j] == steps[j];
    }
  }

  /**
   In a run that starts with `room` empty, a `join` for it is answered with
   `room_created` exactly when no earlier step joined it, and with
   `room_joined` otherwise; either way the reply goes to that joiner alone.
   */
  lemma FirstJoinerCreates(rooms: Table, steps: seq<Step>, i: nat, room: RoomId)
    requires Members(rooms, room) == {}
    requires i < |steps| && steps[i].msg == JoinMsg(room)
    ensures var first := forall j :: 0 <= j < i ==> steps[j].msg != JoinMsg(room);
            ReplyAt(rooms, steps, i)
            == {Outgoing(if first then RoomCreated else RoomJoined, steps[i].sender, RoomInfo(room, steps[i].sender))}
  {
    NoJoinerIsEmpty(rooms, steps, i, room);
  }

  /** Serialized joins never produce two `room_created` for the same room. */
  lemma OneCreatorPerRoom(rooms: Table, steps: seq<Step>, i: nat, j: nat, room: RoomId)
    requires Members(rooms, room) == {}
    requires i < |steps| && steps[i].msg == JoinMsg(room)
    requires j < |steps| && steps[j].msg == JoinMsg(room)
    requires Outgoing(RoomCreated, steps[i].sender, RoomInfo(room, steps[i].sender)) in ReplyAt(rooms, steps, i)
    requires Outgoing(RoomCreated, steps[j].sender, RoomInfo(room, steps[j].sender)) in ReplyAt(rooms, steps, j)
    ensures i == j
  {
    FirstJoinerCreates(rooms, steps, i, room);
    FirstJoinerCreates(rooms, steps, j, room);
  }

  /** Two joins of an empty room, in whichever order they are handled: the first creates, the second joins. */
  lemma TwoJoinsOneCreator(rooms: Table, room: RoomId, a: PeerId, b: PeerId)
    requires MemberCount(rooms, room) == 0
    ensures var first := Route(rooms, a, JoinMsg(room));
            var second := Route(first.rooms, b, JoinMsg(room));
            first.out == {Outgoing(RoomCreated, a, RoomInfo(room, a))}
            && second.out == {Outgoing(RoomJoined, b, RoomInfo(room, b))}
  {
  }

  /**
   The call set-up between two browsers: A creates room "abc", B joins it,
   A's `start_call` reaches B alone, and B's answer reaches A alone.
   */
  lemma CallSetupScenario(a: PeerId, b: PeerId, extra: Fields)
    requires a != b
    ensures var s1 := Route(map[], a, JoinMsg("abc"));
            var s2 := Route(s1.rooms, b, JoinMsg("abc"));
            var s3 := Route(s2.rooms, a, StartCallMsg(StartCallEvent("abc", a, extra)));
            var s4 := Route(s3.rooms, b, AnswerMsg(SdpEvent("abc", b, a, "x", extra)));
            && s1.out == {Outgoing(RoomCreated, a, RoomInfo("abc", a))}
            && s2.out == {Outgoing(RoomJoined, b, RoomInfo("abc", b))}
            && s3.out == {Outgoing(StartCall, b, CallerInfo(a))}
            && s4.out == {Outgoing(WebrtcAnswer, a, Description("x", b))}
  {
  }
}
