# tsufia-backend: room creation, sign-up and socket addressing

This project models the parts of the tsufia backend that carry logic of their own.
The backend serves a room-based social-deduction game.

- **Room creation and listing.** `RoomsService.createRoom` checks the requester's id, then that the
  requester is a stored user, then the title, then the total head count. It then builds the
  initial room: head count 1, status waiting (`대기중`), and the creator as the only member,
  flagged host. It saves that room and returns it. `getRooms` refuses a request without a user id
  and otherwise lists every stored room.
- **Sign-up.** `UsersService.createUser` refuses an email that is already taken, then a password
  that differs from its confirmation. Otherwise it inserts one user.
- **Room gateway.** Each socket handler changes the state of one connection and then emits in
  code order. A connection's state is its set of groups (`rooms` is the lobby, `rooms/<id>` is
  one room), its `roomId` and its `host` flag. `Hub` holds a map from socket id to that state.
  Each handler returns its emits as `Delivery` values. A delivery pairs the addressed emit (`Self`,
  `Group g` or `GroupExceptSelf g`) with the sockets that receive it. Recipients are computed from
  the registry as it stands when the emit is made. For example, the creator of a room is not told
  of its own creation, because it left the lobby before the notice went out.
- **Game gateway.** A pure routing table. The `/1` steps answer the sender only. Every other game
  event goes to the group of the room it names.

Repositories are in-memory maps held by classes (`UserRepository`, `RoomRepository`). They use
auto-increment ids that start at 1. A service result is `Result`/`Outcome`: the error value tells
which check fired, and the error text is not modelled.

Files: `wrappers.dfy`, `entities.dfy` (User, Room, Status, Game), `users_service.dfy`,
`rooms_service.dfy`, `sockets.dfy` (group names, addresses, recipients), `rooms_gateway.dfy`,
`games_gateway.dfy`.

Where the code does less than the system's intended behaviour, the model follows the code:
- A head count below 1 is meant to be refused. `createRoom` rejects a head count only when it is
  missing or 0 (`!totalHeadCount`), so a negative head count is accepted.
- The `rooms:enter:server` handler checks neither the room's capacity nor its status. It tells the
  entering client to create the game exactly when the room payload is full and has no game. No
  code in this model starts a game.
- Leaving a room is meant to bring the client back to the lobby. `rooms:leave:server` and
  `rooms:remove:server` do not re-join the lobby.
- `rooms:join-room:server` adds the room group without leaving the lobby. Lobby and room
  membership are therefore not exclusive.

## Model

| member | source | states |
|---|---|---|
| `Entities.IsHost` | src/rooms/rooms.gateway.ts:42 | a member is host exactly when its host flag is neither of an optional boolean's falsy values, missing and false |
| `Entities.HostCount` | src/rooms/rooms.service.ts:40-41 | the number of members flagged host; it is 0 exactly when no member is host |
| `Entities.HostCountOneIsSoleHost` | src/rooms/rooms.service.ts:38-41 | the host count is 1 exactly when some member is flagged host and no other member is; this is what the room invariant's "a single host" means |
| `Users.EmailTaken` | src/users/users.service.ts:15-18 | the email lookup finds a row exactly when the email is among the stored users' emails |
| `Users.SignUpCheck` | src/users/users.service.ts:15-19 | a taken email is reported as a duplicate even when the passwords also differ; a free email with a mismatched confirmation is a mismatch; otherwise sign-up passes |
| `Users.Draft` | src/users/users.service.ts:22 | the new user carries the given email, first name, last name and password (all present); it has no nickname, no host flag and no confirmation field |
| `Users.UserRepository.Save` | src/users/users.service.ts:23 | insertion under a fresh id (the next auto-increment value); the existing rows are kept |
| `Users.UsersService.CreateUser` | src/users/users.service.ts:12-29 | answers `SignUpCheck` on the table as it was; a failure leaves the table unchanged; a success adds exactly one row (the draft under a fresh id), keeps the other rows and advances the next id by one; unique emails stay unique when calls run one after another (see Concurrency under "Left out"); afterwards the email is taken |
| `Users.SignUpKeepsEmailsUnique` | src/users/users.service.ts:15-23 | inserting a user whose email was free in the table it is inserted into keeps emails unique across the table; this covers sign-ups that run one after another, not two that overlap |
| `Users.SignUpTakesEmail` | src/users/users.service.ts:18-23 | after the insert the email counts as taken |
| `Users.SecondSignUpIsDuplicate` | src/users/users.service.ts:15-23 | after a successful sign-up, a second one with the same email that starts after it fails as a duplicate |
| `Rooms.RoomRepository.Save` | src/rooms/rooms.service.ts:42 | the saved room gets a fresh id, that id is written back into the returned room, and nothing else in the table changes |
| `Rooms.RoomRepository.FindAll` | src/rooms/rooms.service.ts:58 | every stored room appears; every listed room is stored under its own id; ids strictly increase, so no room is listed twice |
| `Rooms.Identified` | src/rooms/rooms.service.ts:27-29 | the requester passes both identity checks exactly when its id is present, not 0, and a stored user's id |
| `Rooms.IdGiven` | src/rooms/rooms.service.ts:27 | the id check passes exactly when the id is neither of a number's falsy values, missing and 0 |
| `Rooms.TitleGiven` | src/rooms/rooms.service.ts:33 | the title check passes exactly when the title is neither missing nor the empty string |
| `Rooms.HeadCountGiven` | src/rooms/rooms.service.ts:34 | the head-count check passes exactly when the count is neither missing nor 0, so a negative count passes |
| `Rooms.Selected` | src/rooms/rooms.service.ts:28 | the user row as read with its column selection keeps id, first name, last name and nickname; email, password and host flag are not loaded |
| `Rooms.Draft` | src/rooms/rooms.service.ts:37 | the drafted room has the given title and head count, no members and no game |
| `Rooms.CreateRoomOutcome` | src/rooms/rooms.service.ts:24-43 | a missing or 0 requester id fails as unauthorized before any lookup; an unknown requester fails as not found; only then an empty title, then a missing or 0 head count fail; success holds exactly when all checks pass, and the room then has the next id, the given title and head count, head count 1, status waiting, no game and the creator, as read with its selected columns and flagged host, as its only member; that member carries no password; so head count equals the member count and exactly one member is host |
| `Rooms.CreatorIsSoleHost` | src/rooms/rooms.service.ts:38-41 | the only member of a new room is the requester, and the member at index 0 is the only one flagged host |
| `Rooms.RoomsService.CreateRoom` | src/rooms/rooms.service.ts:18-48 | answers the outcome above; no room is saved on any failing path; on success the returned room is the one saved under a fresh id, the other rooms are kept and the next id advances by one; the user table is not written; rooms with a consistent head count and a single host stay so |
| `Rooms.RoomsService.GetRooms` | src/rooms/rooms.service.ts:50-63 | fails as unauthorized exactly when the id is missing or 0; otherwise lists every stored room unchanged, each once, and changes nothing |
| `Sockets.RoomGroup` | src/rooms/rooms.gateway.ts:24 | a room group name is never the lobby's name |
| `Sockets.RoomGroupInjective` | src/rooms/rooms.gateway.ts:24 | distinct room ids name distinct groups |
| `Sockets.NatToString` | src/rooms/rooms.gateway.ts:49 | a number is written into a group name as a non-empty string of decimal digits, with a leading 0 only for the number 0 |
| `Sockets.NatToStringRoundTrip` | src/rooms/rooms.gateway.ts:49 | reading the written digits back as a decimal numeral gives the number |
| `Sockets.NatToStringInjective` | src/rooms/rooms.gateway.ts:49 | distinct numbers are written differently |
| `Sockets.Negated` | src/rooms/rooms.gateway.ts:49 | a minus sign before a string of digits is a numeral whose value is the negated value of the digits |
| `Sockets.IntToString` | src/rooms/rooms.gateway.ts:49 | an integer is written as a numeral that starts with a minus sign exactly when it is negative, and reading the numeral back gives the integer |
| `Sockets.IntToStringInjective` | src/rooms/rooms.gateway.ts:49 | distinct integers are written differently |
| `Sockets.Join` | src/rooms/rooms.gateway.ts:17 | afterwards the socket is in the group; its other memberships, room id and host flag are untouched |
| `Sockets.Leave` | src/rooms/rooms.gateway.ts:32 | afterwards the socket is not in the group; its other memberships, room id and host flag are untouched |
| `Sockets.Deliver` | src/rooms/rooms.gateway.ts:67-71 | a group emit reaches exactly the group's current members; a broadcast reaches them without the sender, so never the sender; a self emit reaches the sender only; recipients are live sockets or the sender |
| `Sockets.Members` | src/rooms/rooms.gateway.ts:35 | a group's members are live sockets, and a live socket is a member exactly when it has joined the group |
| `Sockets.Recipients` | src/rooms/rooms.gateway.ts:67-71 | `client.emit` reaches the sender only; `server.to(g).emit` and `client.broadcast.to(g).emit` reach only live sockets; `server.to(g).emit` reaches exactly the group's current members, the sender included when it is one; `client.broadcast.to(g).emit` reaches those members without the sender |
| `Sockets.LeavingRemovesOnlySelf` | src/rooms/rooms.gateway.ts:32-35 | after a socket leaves a group, the group is its old members without that socket |
| `Sockets.JoiningAddsOnlySelf` | src/rooms/rooms.gateway.ts:24 | after a socket joins a group, the group is its old members plus that socket |
| `Sockets.OtherGroupUnchanged` | src/rooms/rooms.gateway.ts:65-69 | a change to one socket that does not touch its membership of a group leaves that group's members unchanged |
| `RoomsGateway.GroupOf` | src/rooms/rooms.gateway.ts:49 | the group named by a numeric room id is `rooms/` followed by the id as written into a template string; it is never the lobby |
| `RoomsGateway.GroupOfReadsBack` | src/rooms/rooms.gateway.ts:49 | the part of the group name after `rooms/` is a numeral that reads back as the room id |
| `RoomsGateway.GroupOfInjective` | src/rooms/rooms.gateway.ts:78-84 | distinct room ids name distinct groups, so one room's emits never reach another room's members through its group |
| `RoomsGateway.ReadyForGame` | src/rooms/rooms.gateway.ts:70 | for a room whose head count matches its member list, the room is ready exactly when the members fill its capacity and it has no game |
| `RoomsGateway.FindMember` | src/rooms/rooms.gateway.ts:41 | finds nothing exactly when no member has the id; otherwise returns the first member with that id |
| `RoomsGateway.FirstWithIdUnique` | src/rooms/rooms.gateway.ts:41 | only one index can be the first with a given id |
| `RoomsGateway.Hub.HandleJoinRoom` | src/rooms/rooms.gateway.ts:16-19 | joins the lobby; the room id and host flag stay as they were; emits nothing |
| `RoomsGateway.Hub.HandleJoinOneRoom` | src/rooms/rooms.gateway.ts:23-27 | joins `rooms/<data>` and sets the room id to `data`; lobby membership and the host flag are unchanged; emits nothing |
| `RoomsGateway.Hub.HandleCreateRoom` | src/rooms/rooms.gateway.ts:31-36 | leaves the lobby and sets host; the one creation notice reaches the other lobby sockets and not the creator |
| `RoomsGateway.Hub.HandleGetRoom` | src/rooms/rooms.gateway.ts:40-43 | afterwards the host flag is set exactly when it was set before or the first listed member with the user's id is host; a set flag is never cleared; nothing else changes; emits nothing |
| `RoomsGateway.Hub.HandleUpdateRoom` | src/rooms/rooms.gateway.ts:47-50 | changes no state; emits the same room to the lobby, then to the room's own group, each reaching that group's current members |
| `RoomsGateway.Hub.HandleRemoveRoom` | src/rooms/rooms.gateway.ts:54-60 | notifies the lobby as it was, then leaves the room group and clears the room id and host flag; lobby membership is unchanged |
| `RoomsGateway.Hub.HandleEnterRoom` | src/rooms/rooms.gateway.ts:64-73 | leaves the lobby, then emits in order: the room to the other lobby sockets, the user to the other room members, the room to the whole room group; the game-creation request goes to the sender alone, as a fourth emit, exactly when the room is full and has no game, and is never sent otherwise |
| `RoomsGateway.Hub.HandleLeaveRoom` | src/rooms/rooms.gateway.ts:77-85 | leaves the room group and clears the room id and host flag before emitting; the lobby hears the room; neither room-group message reaches the leaver; the lobby is not re-joined |
| `GamesGateway.Route` | src/games/games.gateway.ts:13-49 | `/1` steps go to the sender only; every other event goes to `rooms/<roomId>` (for user-role/2, `rooms/<room.id>`); no event goes to the lobby or excludes the sender; each carries its message body (game, game id and room id, room id, or room) |
| `GamesGateway.FirstStepReachesOnlySender` | src/games/games.gateway.ts:23-44 | a `/1` reply reaches exactly the sender |
| `GamesGateway.OtherEventsReachRoomGroup` | src/games/games.gateway.ts:13-49 | a create or `/2` event reaches exactly the members of the room's group |
| `GamesGateway.GameEventsStayInRoom` | src/games/games.gateway.ts:13-49 | a socket that is neither the sender nor in the room's group receives no game event |
| `GamesGateway.Dispatch` | src/games/games.gateway.ts:13-49 | delivers the routed emit without changing any socket's groups, room id or host flag |

## Left out

- Capacity checks, host succession, vote tallying, game phases and restart. The service methods
  that would hold them (`enterRoom`, `leaveRoom`, `createUserRole`, `patchSurvive`,
  `patchRestartRoom`, `getRoom`, `patchRoom`, `deleteRoom`, `getUser`) are called from
  src/rooms/rooms.controller.ts and src/users/users.controller.ts. Their source is not part of this
  model, so none of this behaviour is modelled.
- Authentication (`auth.service.ts`): JWT signing and verification, cookies and password checking
  are library calls. The request's user id is an input.
- The controllers and modules are decorator wiring that forwards to the services.
- Malformed gateway payloads. Every socket handler is modelled with its payload in its declared
  shape (`Room`, `User`, a number). A payload that lacks a field makes the source throw part-way,
  after some of its effects. For example, `rooms:update:server` would send the lobby notice and
  then fail on `data.id`. `rooms:enter:server` would leave the lobby and notify it before failing.
  The model has no such partial runs.
- The `try/catch` paths of the services. A thrown repository or destructuring error would answer `ok: false`. The
  model has no failing repository, and `user` is always present on the request.
- TypeORM relation loading. Column selection is modelled only for the user lookup in
  `createRoom` (`Rooms.Selected`).
- Relation cascades: `createRoom` is modelled as not writing the user table. The entity
  definitions that would decide a cascade are not part of this model.
- Password hashing: the stored password is the one given.
- JavaScript values in request bodies. Numbers are modelled as integers throughout: there is no
  NaN, no infinity and no fraction. A `totalHeadCount` of 2.5 passes `!totalHeadCount`
  (src/rooms/rooms.service.ts:34) and is saved, and the test `currentHeadCount === totalHeadCount`
  (src/rooms/rooms.gateway.ts:70) can then never hold; the model cannot express that input.
  Service request bodies, like gateway payloads, are taken in their declared types, so a head
  count sent as the string `"0"`, which is truthy and accepted by the source, has no counterpart.
- The email lookup (src/users/users.service.ts:15) is modelled as exact string equality. A
  case-insensitive database collation, which would make two emails differing only in case collide,
  is not modelled.
- The order of `find()` is left to the database in the source. `FindAll` lists rooms by ascending
  id.
- `console.log` of the adapter rooms, CORS and origin settings, and the socket.io transport.
  `Hub.Connect` and `Hub.Disconnect` stand in for connection and disconnection. Socket.io's
  own per-socket group is not modelled.
- `Sockets.NatToString` and `Sockets.IntToString` write numbers in plain decimal. They do not
  model JavaScript's exponent notation for numbers of 10^21 and above, nor non-integer numbers.
- Concurrency: each service call is modelled as one atomic step. In the source, other requests
  can run at every `await`. In `createUser`, that includes the gap between the duplicate-email
  lookup (src/users/users.service.ts:15) and the insert (:23). Two overlapping sign-ups with one email
  can therefore both pass the check and both insert, unless the database enforces a unique email;
  no entity definition in this model declares one. `CreateUser`'s unique-email promise,
  `SignUpKeepsEmailsUnique` and `SecondSignUpIsDuplicate` hold for calls that run one after another
  only. `createRoom` has the same gap between the user lookup (src/rooms/rooms.service.ts:28)
  and the save (:42). The socket handlers run to completion one at a time.
