/** The room socket handlers (`RoomsGateway`) over a registry of connections. */
module RoomsGateway {
  import opened Wrappers
  import opened Entities
  import opened Sockets

  /** `i` is the index of the first member of `list` whose id is `id`. */
  predicate IsFirstWithId(list: seq<User>, id: int, i: int) {
    0 <= i < |list| && list[i].id == id && forall j :: 0 <= j < i ==> list[j].id != id
  }

  /** `list.find((listUser) => listUser.id === id)`. */
  function FindMember(list: seq<User>, id: int): (r: Option<User>)
    ensures r.None? <==> forall i :: 0 <= i < |list| ==> list[i].id != id
    ensures r.Some? ==> exists i :: IsFirstWithId(list, id, i) && list[i] == r.value
  {
    if list == [] then None
    else if list[0].id == id then
      assert IsFirstWithId(list, id, 0);
      Some(list[0])
    else
      var r := FindMember(list[1..], id);
      assert forall i :: IsFirstWithId(list[1..], id, i) ==> IsFirstWithId(list, id, i + 1);
      r
  }

  /** The member listed first under `id` is flagged host. */
  ghost predicate ListedAsHost(list: seq<User>, id: int) {
    exists i :: IsFirstWithId(list, id, i) && IsHost(list[i])
  }

  /** Only one index can be the first with a given id. */
  lemma FirstWithIdUnique(list: seq<User>, id: int, i: int, j: int)
    requires IsFirstWithId(list, id, i) && IsFirstWithId(list, id, j)
    ensures i == j
  {
  }

  /** The payload room is full and has no game yet: the entering client is told
      to create one. For a room whose head count matches its member list, that
      means the member list has reached the room's capacity. */
  predicate ReadyForGame(room: Room): (ready: bool)
    ensures room.currentHeadCount == |room.userList| ==>
              (ready <==> |room.userList| == room.totalHeadCount && room.game.None?)
  {
    room.currentHeadCount == room.totalHeadCount && room.game.None?
  }

  /** The group of the room a payload names by its numeric id, `rooms/${id}`;
      never the lobby's name. */
  function GroupOf(roomId: int): (g: string)
    ensures g != Lobby
    ensures |g| > 6 && g[..6] == "rooms/" && g[6..] == IntToString(roomId)
  {
    assert RoomGroup(IntToString(roomId))[6..] == IntToString(roomId);
    RoomGroup(IntToString(roomId))
  }

  /** The room id can be read back from its group's name. */
  lemma GroupOfReadsBack(roomId: int)
    ensures IsIntNumeral(GroupOf(roomId)[6..]) && NumeralValue(GroupOf(roomId)[6..]) == roomId
  {
  }

  /** Distinct room ids name distinct groups, so an emit to one room's group
      never reaches the members of another. */
  lemma GroupOfInjective(a: int, b: int)
    requires GroupOf(a) == GroupOf(b)
    ensures a == b
  {
    GroupOfReadsBack(a);
    GroupOfReadsBack(b);
  }

  /** The three notices of `rooms:enter:server` are not the game-creation request. */
  lemma EnterEventsDiffer()
    ensures "rooms:enter:client" != "games:create:only-self-client"
    ensures "rooms:enter:broadcast-client" != "games:create:only-self-client"
    ensures "rooms:enter:each-client" != "games:create:only-self-client"
  {
    assert |"rooms:enter:client"| != |"games:create:only-self-client"|;
    assert |"rooms:enter:broadcast-client"| != |"games:create:only-self-client"|;
    assert |"rooms:enter:each-client"| != |"games:create:only-self-client"|;
  }

  /** The socket server: every live connection and its state. */
  class Hub {
    var conns: map<ConnId, Connection>

    constructor ()
      ensures conns == map[]
    {
      conns := map[];
    }

    /** A socket connects (transport, no handler of the gateway). */
    method Connect(id: ConnId)
      requires id !in conns
      modifies this
      ensures conns == old(conns)[id := Fresh]
    {
      conns := conns[id := Fresh];
    }

    /** A socket disconnects and leaves every group (transport, no handler of the gateway). */
    method Disconnect(id: ConnId)
      modifies this
      ensures conns == old(conns) - {id}
    {
      conns := conns - {id};
    }

    /** `rooms:join:server`: join the lobby; nothing is emitted. */
    method HandleJoinRoom(self: ConnId) returns (out: seq<Delivery>)
      requires self in conns
      modifies this
      ensures conns == old(conns)[self := Join(old(conns)[self], Lobby)]
      ensures conns[self].roomId == old(conns)[self].roomId && conns[self].host == old(conns)[self].host
      ensures out == []
    {
      conns := conns[self := Join(conns[self], Lobby)];
      out := [];
    }

    /** `rooms:join-room:server`: join `rooms/<data>` and remember `data` as the
        room id; lobby membership is kept. */
    method HandleJoinOneRoom(self: ConnId, data: string) returns (out: seq<Delivery>)
      requires self in conns
      modifies this
      ensures conns == old(conns)[self := Join(old(conns)[self], RoomGroup(data)).(roomId := Some(data))]
      ensures Lobby in conns[self].groups <==> Lobby in old(conns)[self].groups
      ensures Members(conns, RoomGroup(data)) == Members(old(conns), RoomGroup(data)) + {self}
      ensures out == []
    {
      JoiningAddsOnlySelf(conns, self, RoomGroup(data));
      conns := conns[self := Join(conns[self], RoomGroup(data))];
      conns := conns[self := conns[self].(roomId := Some(data))];
      out := [];
    }

    /** `rooms:create:server`: leave the lobby, become host, then tell the lobby.
        The creating socket is not among the recipients. */
    method HandleCreateRoom(self: ConnId, data: Room) returns (out: seq<Delivery>)
      requires self in conns
      modifies this
      ensures conns == old(conns)[self := Leave(old(conns)[self], Lobby).(host := true)]
      ensures out == [Delivery(Emit(Group(Lobby), "rooms:create:client", RoomBody(data)),
                               Members(old(conns), Lobby) - {self})]
      ensures self !in out[0].recipients
    {
      LeavingRemovesOnlySelf(conns, self, Leave(conns[self], Lobby).(host := true), Lobby);
      conns := conns[self := Leave(conns[self], Lobby)];
      OtherGroupUnchanged(conns, self, conns[self].(host := true), Lobby);
      conns := conns[self := conns[self].(host := true)];
      out := [Deliver(conns, self, Emit(Group(Lobby), "rooms:create:client", RoomBody(data)))];
    }

    /** `rooms:get:server`: become host if the payload room lists the payload user
        as host; otherwise the flag is left as it was, never cleared. */
    method HandleGetRoom(self: ConnId, room: Room, user: User) returns (out: seq<Delivery>)
      requires self in conns
      modifies this
      ensures self in conns && conns == old(conns)[self := old(conns)[self].(host := conns[self].host)]
      ensures conns[self].host <==> old(conns)[self].host || ListedAsHost(room.userList, user.id)
      ensures out == []
    {
      var currentUser := FindMember(room.userList, user.id);
      if currentUser.Some? && IsHost(currentUser.value) {
        conns := conns[self := conns[self].(host := true)];
      }
      if currentUser.Some? {
        forall i | IsFirstWithId(room.userList, user.id, i)
          ensures room.userList[i] == currentUser.value
        {
          var k :| IsFirstWithId(room.userList, user.id, k) && room.userList[k] == currentUser.value;
          FirstWithIdUnique(room.userList, user.id, i, k);
        }
      }
      out := [];
    }

    /** `rooms:update:server`: the same room goes to the lobby and to its own
        group; no connection changes. */
    method HandleUpdateRoom(self: ConnId, data: Room) returns (out: seq<Delivery>)
      requires self in conns
      ensures |out| == 2
      ensures out[0].emit == Emit(Group(Lobby), "rooms:update:client", RoomBody(data))
      ensures out[1].emit == Emit(Group(GroupOf(data.id)), "rooms:update:each-client", RoomBody(data))
      ensures out[0].emit.payload == out[1].emit.payload
      ensures out[0].recipients == Members(conns, Lobby)
      ensures out[1].recipients == Members(conns, GroupOf(data.id))
    {
      out := [Deliver(conns, self, Emit(Group(Lobby), "rooms:update:client", RoomBody(data)))];
      out := out + [Deliver(conns, self, Emit(Group(GroupOf(data.id)), "rooms:update:each-client", RoomBody(data)))];
    }

    /** `rooms:remove:server`: tell the lobby, then leave the room's group and
        clear the room id and host flag; the lobby is not re-joined. */
    method HandleRemoveRoom(self: ConnId, data: int) returns (out: seq<Delivery>)
      requires self in conns
      modifies this
      ensures conns == old(conns)[self := Connection(old(conns)[self].groups - {GroupOf(data)}, None, false)]
      ensures Lobby in conns[self].groups <==> Lobby in old(conns)[self].groups
      ensures out == [Delivery(Emit(Group(Lobby), "rooms:remove:client", RoomIdBody(data)),
                               Members(old(conns), Lobby))]
    {
      var toLobby := Deliver(conns, self, Emit(Group(Lobby), "rooms:remove:client", RoomIdBody(data)));
      out := [toLobby];
      var left := Leave(conns[self], GroupOf(data));
      left := left.(roomId := None);
      left := left.(host := false);
      conns := conns[self := left];
    }

    /** `rooms:enter:server`: leave the lobby, then notify the lobby, the other
        members of the room, and the whole room, in that order; a full room without
        a game also makes the entering socket alone create the game. */
    method HandleEnterRoom(self: ConnId, data: Room, user: User) returns (out: seq<Delivery>)
      requires self in conns
      modifies this
      ensures conns == old(conns)[self := Leave(old(conns)[self], Lobby)]
      ensures |out| == if ReadyForGame(data) then 4 else 3
      ensures out[0] == Delivery(Emit(Group(Lobby), "rooms:enter:client", RoomBody(data)),
                                 Members(old(conns), Lobby) - {self})
      ensures out[1] == Delivery(Emit(GroupExceptSelf(GroupOf(data.id)), "rooms:enter:broadcast-client", UserBody(user)),
                                 Members(old(conns), GroupOf(data.id)) - {self})
      ensures out[2] == Delivery(Emit(Group(GroupOf(data.id)), "rooms:enter:each-client", RoomBody(data)),
                                 Members(old(conns), GroupOf(data.id)))
      ensures ReadyForGame(data) ==>
                out[3] == Delivery(Emit(Self, "games:create:only-self-client", RoomIdBody(data.id)), {self})
      ensures forall i :: 0 <= i < |out| && out[i].emit.event == "games:create:only-self-client" ==>
                i == 3 && ReadyForGame(data) && out[i].recipients == {self}
    {
      var g := GroupOf(data.id);
      var before := conns;
      var after := before[self := Leave(before[self], Lobby)];
      LeavingRemovesOnlySelf(before, self, after[self], Lobby);
      OtherGroupUnchanged(before, self, after[self], g);
      conns := after;
      // Every emit below reads the registry as it now is.
      var toLobby := Deliver(after, self, Emit(Group(Lobby), "rooms:enter:client", RoomBody(data)));
      var toOthers := Deliver(after, self, Emit(GroupExceptSelf(g), "rooms:enter:broadcast-client", UserBody(user)));
      var toRoom := Deliver(after, self, Emit(Group(g), "rooms:enter:each-client", RoomBody(data)));
      out := [toLobby, toOthers, toRoom];
      if data.currentHeadCount == data.totalHeadCount && data.game.None? {
        var toSelf := Deliver(after, self, Emit(Self, "games:create:only-self-client", RoomIdBody(data.id)));
        out := out + [toSelf];
      }
      forall i | 0 <= i < 3
        ensures out[i].emit.event != "games:create:only-self-client"
      {
        EnterEventsDiffer();
        if i == 0 {
          assert out[i] == toLobby;
        } else if i == 1 {
          assert out[i] == toOthers;
        } else {
          assert out[i] == toRoom;
        }
      }
    }

    /** `rooms:leave:server`: leave the room's group and clear the room id and host
        flag first, then notify the lobby, the other members, and the room; the
        leaving socket receives neither room-group message, and the lobby is not
        re-joined. */
    method HandleLeaveRoom(self: ConnId, data: Room, user: User) returns (out: seq<Delivery>)
      requires self in conns
      modifies this
      ensures conns == old(conns)[self := Connection(old(conns)[self].groups - {GroupOf(data.id)}, None, false)]
      ensures Lobby in conns[self].groups <==> Lobby in old(conns)[self].groups
      ensures out == [Delivery(Emit(Group(Lobby), "rooms:leave:client", RoomBody(data)),
                               Members(old(conns), Lobby)),
                      Delivery(Emit(GroupExceptSelf(GroupOf(data.id)), "rooms:leave:broadcast-client", UserBody(user)),
                               Members(old(conns), GroupOf(data.id)) - {self}),
                      Delivery(Emit(Group(GroupOf(data.id)), "rooms:leave:each-client", RoomBody(data)),
                               Members(old(conns), GroupOf(data.id)) - {self})]
      ensures self !in out[1].recipients && self !in out[2].recipients
    {
      var g := GroupOf(data.id);
      var before := conns;
      var left := Leave(before[self], g);
      left := left.(roomId := None);
      left := left.(host := false);
      assert left == Connection(before[self].groups - {g}, None, false);
      LeavingRemovesOnlySelf(before, self, left, g);
      OtherGroupUnchanged(before, self, left, Lobby);
      var after := before[self := left];
      conns := after;
      // Every emit below reads the registry as it now is.
      var toLobby := Deliver(after, self, Emit(Group(Lobby), "rooms:leave:client", RoomBody(data)));
      var toOthers := Deliver(after, self, Emit(GroupExceptSelf(g), "rooms:leave:broadcast-client", UserBody(user)));
      var toRoom := Deliver(after, self, Emit(Group(g), "rooms:leave:each-client", RoomBody(data)));
      assert toLobby.recipients == Members(before, Lobby);
      assert toOthers.recipients == Members(before, g) - {self};
      assert toRoom.recipients == Members(before, g) - {self};
      out := [toLobby, toOthers, toRoom];
    }
  }
}
