/** Room creation and listing: `RoomsService.createRoom` and `getRooms` over
    in-memory room and user tables. */
module Rooms {
  import opened Wrappers
  import opened Entities
  import Users

  /** The room table: rows keyed by their auto-increment id (ids start at 1). */
  class RoomRepository {
    var rows: map<int, Room>
    var nextId: int

    ghost predicate Valid()
      reads this
    {
      && nextId >= 1
      && forall id :: id in rows ==> 1 <= id < nextId && rows[id].id == id
    }

    constructor ()
      ensures Valid() && rows == map[] && nextId == 1
    {
      rows := map[];
      nextId := 1;
    }

    /** `save` of an entity that has no id yet: it is inserted under the next id,
        which is also written back into the entity. */
    method Save(room: Room) returns (saved: Room)
      requires Valid()
      modifies this
      ensures Valid()
      ensures saved == room.(id := old(nextId))
      ensures old(nextId) !in old(rows)
      ensures rows == old(rows)[saved.id := saved] && nextId == old(nextId) + 1
    {
      saved := room.(id := nextId);
      rows := rows[nextId := saved];
      nextId := nextId + 1;
    }

    /** `find()`: every stored room, each once, in ascending id order. */
    method FindAll() returns (all: seq<Room>)
      requires Valid()
      ensures forall id :: id in rows ==> rows[id] in all
      ensures forall i :: 0 <= i < |all| ==> all[i].id in rows && rows[all[i].id] == all[i]
      ensures forall i, j :: 0 <= i < j < |all| ==> all[i].id < all[j].id
    {
      all := [];
      var k := 1;
      while k < nextId
        invariant 1 <= k <= nextId
        invariant forall id :: id in rows && id < k ==> rows[id] in all
        invariant forall i :: 0 <= i < |all| ==> all[i].id in rows && rows[all[i].id] == all[i] && all[i].id < k
        invariant forall i, j :: 0 <= i < j < |all| ==> all[i].id < all[j].id
      {
        if k in rows {
          assert rows[k].id == k;
          all := all + [rows[k]];
          assert all[|all| - 1] == rows[k];
        }
        k := k + 1;
      }
    }
  }

  /** The authenticated request; `userId` is `user.id` as the guard attached it. */
  datatype RequestWithUser = RequestWithUser(userId: Option<int>)

  /** The body of a room-creation request. */
  datatype CreateRoomInput = CreateRoomInput(title: Option<string>, totalHeadCount: Option<int>)

  /** Which check rejected a request. */
  datatype RoomsError = Unauthorized | UserNotFound | TitleRequired | HeadCountRequired

  /** `!id` is false: the id is neither of a number's falsy values, `undefined`
      and 0. */
  predicate IdGiven(id: Option<int>): (given: bool)
    ensures given <==> id !in {None, Some(0)}
  {
    id.Some? && id.value != 0
  }

  /** `!title` is false: the title is neither of a string's falsy values,
      `undefined` and the empty string. */
  predicate TitleGiven(title: Option<string>): (given: bool)
    ensures given <==> title !in {None, Some("")}
  {
    title.Some? && title.value != ""
  }

  /** `!totalHeadCount` is false: the head count is neither of a number's falsy
      values, `undefined` and 0; a negative count passes. */
  predicate HeadCountGiven(n: Option<int>): (given: bool)
    ensures given <==> n !in {None, Some(0)}
  {
    n.Some? && n.value != 0
  }

  /** The requester passes both identity checks against the user table. */
  predicate Identified(users: map<int, User>, req: RequestWithUser): (ok: bool)
    ensures ok <==> exists id :: req.userId == Some(id) && id != 0 && id in users
  {
    IdGiven(req.userId) && req.userId.value in users
  }

  /** The user row as `findOne` reads it with `select: ['id', 'firstName',
      'lastName', 'nickname']`: the selected columns are kept, and the email,
      the password and the host flag are not loaded. */
  function Selected(u: User): (m: User)
    ensures m.id == u.id && m.firstName == u.firstName && m.lastName == u.lastName
    ensures m.nickname == u.nickname
    ensures m.email == None && m.password == None && m.host == None
  {
    User(u.id, None, None, u.firstName, u.lastName, u.nickname, None)
  }

  /** The entity `create({ title, totalHeadCount })` builds: no id yet (0), no
      members, no game; head count and status are assigned afterwards. */
  function Draft(title: string, totalHeadCount: int): (room: Room)
    ensures room.title == title && room.totalHeadCount == totalHeadCount
    ensures room.userList == [] && room.game == None
  {
    Room(0, title, totalHeadCount, 0, Waiting, [], None)
  }

  /** What `createRoom` answers when the user table is `users` and the room table
      would assign `nextId`. */
  function CreateRoomOutcome(users: map<int, User>, nextId: int, req: RequestWithUser, input: CreateRoomInput)
    : (r: Result<Room, RoomsError>)
    ensures !IdGiven(req.userId) ==> r == Failure(Unauthorized)
    ensures IdGiven(req.userId) && req.userId.value !in users ==> r == Failure(UserNotFound)
    ensures Identified(users, req) && !TitleGiven(input.title) ==> r == Failure(TitleRequired)
    ensures Identified(users, req) && TitleGiven(input.title) && !HeadCountGiven(input.totalHeadCount) ==>
              r == Failure(HeadCountRequired)
    ensures r.Success? <==>
              Identified(users, req) && TitleGiven(input.title) && HeadCountGiven(input.totalHeadCount)
    ensures r.Success? ==>
              && r.value.id == nextId
              && r.value.title == input.title.value
              && r.value.totalHeadCount == input.totalHeadCount.value
              && r.value.currentHeadCount == 1
              && r.value.status == Waiting
              && r.value.game == None
              && r.value.userList == [Selected(users[req.userId.value]).(host := Some(true))]
              && r.value.userList[0].password == None
              && WellFormed(r.value)
  {
    if !IdGiven(req.userId) then Failure(Unauthorized)
    else if req.userId.value !in users then Failure(UserNotFound)
    else if !TitleGiven(input.title) then Failure(TitleRequired)
    else if !HeadCountGiven(input.totalHeadCount) then Failure(HeadCountRequired)
    else
      var creator := Selected(users[req.userId.value]).(host := Some(true));
      Success(Room(nextId, input.title.value, input.totalHeadCount.value, 1, Waiting, [creator], None))
  }

  /** A room `createRoom` builds has its creator, who is the requester, as its
      only member and only host. */
  lemma CreatorIsSoleHost(users: map<int, User>, nextId: int, req: RequestWithUser, input: CreateRoomInput)
    requires forall id :: id in users ==> users[id].id == id
    requires CreateRoomOutcome(users, nextId, req, input).Success?
    ensures var room := CreateRoomOutcome(users, nextId, req, input).value;
            && |room.userList| == room.currentHeadCount == 1
            && room.userList[0].id == req.userId.value
            && forall i :: 0 <= i < |room.userList| ==> (IsHost(room.userList[i]) <==> i == 0)
  {
  }

  class RoomsService {
    const users: Users.UserRepository
    const rooms: RoomRepository

    constructor (users: Users.UserRepository, rooms: RoomRepository)
      ensures this.users == users && this.rooms == rooms
    {
      this.users := users;
      this.rooms := rooms;
    }

    /** `createRoom`: identity checks, then input checks, then build and save the
        room. Nothing is saved on a failing path; the saved room is the one returned. */
    method CreateRoom(req: RequestWithUser, input: CreateRoomInput) returns (out: Result<Room, RoomsError>)
      requires users.Valid() && rooms.Valid()
      modifies rooms
      ensures rooms.Valid()
      ensures out == CreateRoomOutcome(users.rows, old(rooms.nextId), req, input)
      ensures out.Failure? ==> rooms.rows == old(rooms.rows) && rooms.nextId == old(rooms.nextId)
      ensures out.Success? ==>
                && out.value.id !in old(rooms.rows)
                && rooms.rows == old(rooms.rows)[out.value.id := out.value]
                && rooms.nextId == old(rooms.nextId) + 1
      ensures (forall id :: id in old(rooms.rows) ==> WellFormed(old(rooms.rows)[id])) ==>
                forall id :: id in rooms.rows ==> WellFormed(rooms.rows[id])
    {
      if !IdGiven(req.userId) {
        return Failure(Unauthorized);
      }
      var id := req.userId.value;
      if id !in users.rows {
        return Failure(UserNotFound);
      }
      var user := Selected(users.rows[id]);
      if !TitleGiven(input.title) {
        return Failure(TitleRequired);
      }
      if !HeadCountGiven(input.totalHeadCount) {
        return Failure(HeadCountRequired);
      }
      var room := Draft(input.title.value, input.totalHeadCount.value);
      room := room.(currentHeadCount := 1);
      room := room.(status := Waiting);
      user := user.(host := Some(true));
      room := room.(userList := [user]);
      room := rooms.Save(room);
      return Success(room);
    }

    /** `getRooms`: refuse a request without a user id; otherwise list every
        stored room, unchanged. */
    method GetRooms(req: RequestWithUser) returns (out: Result<seq<Room>, RoomsError>)
      requires rooms.Valid()
      ensures out.Failure? <==> !IdGiven(req.userId)
      ensures out.Failure? ==> out.error == Unauthorized
      ensures out.Success? ==>
                && (forall id :: id in rooms.rows ==> rooms.rows[id] in out.value)
                && (forall i :: 0 <= i < |out.value| ==> out.value[i] in rooms.rows.Values)
                && (forall i, j :: 0 <= i < j < |out.value| ==> out.value[i] != out.value[j])
    {
      if !IdGiven(req.userId) {
        return Failure(Unauthorized);
      }
      var all := rooms.FindAll();
      return Success(all);
    }
  }
}
