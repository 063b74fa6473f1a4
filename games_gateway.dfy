/** The game socket handlers (`GamesGateway`): each inbound event becomes one
    addressed emit, computed from the event alone. */
module GamesGateway {
  import opened Entities
  import opened Sockets
  import RoomsGateway

  /** The inbound game events and their message bodies. */
  datatype GameEvent =
    | CreateGame(game: Game, roomId: int)            // games:create:server
    | PatchGameStep1(gameId: int, roomId: int)       // games:patch:game/1:server
    | PatchGameStep2(game: Game, roomId: int)        // games:patch:game/2:server
    | PatchUserRoleStep1(roomId: int)                // games:patch:user-role/1:server
    | PatchUserRoleStep2(room: Room)                 // games:patch:user-role/2:server

  /** The room an event is about. */
  function RoomOf(ev: GameEvent): int {
    match ev
    case CreateGame(_, roomId) => roomId
    case PatchGameStep1(_, roomId) => roomId
    case PatchGameStep2(_, roomId) => roomId
    case PatchUserRoleStep1(roomId) => roomId
    case PatchUserRoleStep2(room) => room.id
  }

  /** The `/1` step of a two-step exchange: the answer goes back to the sender only. */
  predicate IsFirstStep(ev: GameEvent) {
    ev.PatchGameStep1? || ev.PatchUserRoleStep1?
  }

  /** The routing table: first steps reply to the sender, every other event goes
      to the group of the room it names; the lobby and the sender-excluding form
      are never used. */
  function Route(ev: GameEvent): (e: Emit)
    ensures IsFirstStep(ev) <==> e.to == Self
    ensures !IsFirstStep(ev) <==> e.to == Group(RoomsGateway.GroupOf(RoomOf(ev)))
    ensures ev.PatchGameStep1? ==> e.payload == GameAndRoomIds(ev.gameId, ev.roomId)
    ensures ev.PatchUserRoleStep1? ==> e.payload == RoomIdBody(ev.roomId)
    ensures ev.CreateGame? || ev.PatchGameStep2? ==> e.payload == GameBody(ev.game)
    ensures ev.PatchUserRoleStep2? ==> e.payload == RoomBody(ev.room)
    ensures ev.CreateGame? ==> e.event == "games:create:each-client"
    ensures ev.PatchGameStep1? ==> e.event == "games:patch:game:self-client"
    ensures ev.PatchGameStep2? ==> e.event == "games:patch:game:each-client"
    ensures ev.PatchUserRoleStep1? ==> e.event == "games:patch:user-role:self-client"
    ensures ev.PatchUserRoleStep2? ==> e.event == "games:patch:user-role:each-client"
  {
    match ev
    case CreateGame(game, roomId) =>
      Emit(Group(RoomsGateway.GroupOf(roomId)), "games:create:each-client", GameBody(game))
    case PatchGameStep1(gameId, roomId) =>
      Emit(Self, "games:patch:game:self-client", GameAndRoomIds(gameId, roomId))
    case PatchGameStep2(game, roomId) =>
      Emit(Group(RoomsGateway.GroupOf(roomId)), "games:patch:game:each-client", GameBody(game))
    case PatchUserRoleStep1(roomId) =>
      Emit(Self, "games:patch:user-role:self-client", RoomIdBody(roomId))
    case PatchUserRoleStep2(room) =>
      Emit(Group(RoomsGateway.GroupOf(room.id)), "games:patch:user-role:each-client", RoomBody(room))
  }

  /** A first-step answer reaches the sender and nobody else. */
  lemma FirstStepReachesOnlySender(conns: map<ConnId, Connection>, self: ConnId, ev: GameEvent)
    requires IsFirstStep(ev)
    ensures Recipients(conns, self, Route(ev).to) == {self}
  {
  }

  /** Every other event reaches exactly the sockets in the room's group, the
      sender included only when it is in that group. */
  lemma OtherEventsReachRoomGroup(conns: map<ConnId, Connection>, self: ConnId, ev: GameEvent)
    requires !IsFirstStep(ev)
    ensures Recipients(conns, self, Route(ev).to) == Members(conns, RoomsGateway.GroupOf(RoomOf(ev)))
  {
  }

  /** A socket that is neither the sender nor in the room's group hears nothing
      of a game event; in particular lobby-only sockets never do. */
  lemma GameEventsStayInRoom(conns: map<ConnId, Connection>, self: ConnId, ev: GameEvent, c: ConnId)
    requires c != self
    requires c in conns ==> RoomsGateway.GroupOf(RoomOf(ev)) !in conns[c].groups
    ensures c !in Recipients(conns, self, Route(ev).to)
  {
  }

  /** Deliver a game event through the socket server. The method has no
      `modifies` clause: no game handler changes any socket's groups, room id or
      host flag. */
  method Dispatch(hub: RoomsGateway.Hub, self: ConnId, ev: GameEvent) returns (d: Delivery)
    requires self in hub.conns
    ensures d.emit == Route(ev)
    ensures IsFirstStep(ev) ==> d.recipients == {self}
    ensures !IsFirstStep(ev) ==> d.recipients == Members(hub.conns, RoomsGateway.GroupOf(RoomOf(ev)))
  {
    d := Deliver(hub.conns, self, Route(ev));
  }
}
