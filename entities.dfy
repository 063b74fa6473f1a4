/** The persisted records the services and gateways pass around. */
module Entities {
  import opened Wrappers

  /** Room status. The modelled code only ever writes the waiting value (`대기중`);
      the entity's other values are kept apart under `Other`. */
  datatype Status = Waiting | Other(name: string)

  /** A game session; only its identity matters to the modelled code. */
  datatype Game = Game(id: int)

  /** A row of the user table. `host` is `None` while the column was never
      written; `email` and `password` are `None` on a row read without them. */
  datatype User = User(
    id: int,
    email: Option<string>,
    password: Option<string>,
    firstName: string,
    lastName: string,
    nickname: Option<string>,
    host: Option<bool>)

  /** A row of the room table together with its member list and optional game. */
  datatype Room = Room(
    id: int,
    title: string,
    totalHeadCount: int,
    currentHeadCount: int,
    status: Status,
    userList: seq<User>,
    game: Option<Game>)

  /** The JavaScript truthiness of `user.host`: both falsy values of an optional
      boolean, `undefined` and `false`, are not host. */
  predicate IsHost(u: User): (h: bool)
    ensures h <==> u.host !in {None, Some(false)}
  {
    match u.host
    case Some(b) => b
    case None => false
  }

  /** The number of members flagged host. */
  function HostCount(users: seq<User>): (n: nat)
    ensures n <= |users|
    ensures n == 0 <==> forall i :: 0 <= i < |users| ==> !IsHost(users[i])
  {
    if users == [] then 0
    else (if IsHost(users[0]) then 1 else 0) + HostCount(users[1..])
  }

  /** Member `i` is host and no other member is. */
  predicate SoleHostAt(users: seq<User>, i: int) {
    0 <= i < |users| && IsHost(users[i]) && forall j :: 0 <= j < |users| && IsHost(users[j]) ==> j == i
  }

  /** A host count of 1 means exactly one member is flagged host. */
  lemma {:induction false} HostCountOneIsSoleHost(users: seq<User>)
    ensures HostCount(users) == 1 <==> exists i :: SoleHostAt(users, i)
  {
    if users == [] {
      return;
    }
    var tail := users[1..];
    if IsHost(users[0]) {
      if HostCount(users) == 1 {
        assert HostCount(tail) == 0;
        assert SoleHostAt(users, 0);
      }
      if i :| SoleHostAt(users, i) {
        assert i == 0;
        forall k | 0 <= k < |tail| ensures !IsHost(tail[k]) {
          assert tail[k] == users[k + 1];
        }
      }
    } else {
      HostCountOneIsSoleHost(tail);
      if HostCount(users) == 1 {
        var k :| SoleHostAt(tail, k);
        forall j | 0 <= j < |users| && IsHost(users[j]) ensures j == k + 1 {
          assert j != 0;
          assert tail[j - 1] == users[j];
        }
        assert SoleHostAt(users, k + 1);
      }
      if i :| SoleHostAt(users, i) {
        assert i != 0;
        forall j | 0 <= j < |tail| && IsHost(tail[j]) ensures j == i - 1 {
          assert tail[j] == users[j + 1];
        }
        assert SoleHostAt(tail, i - 1);
      }
    }
  }

  /** The shape a room is meant to keep: the head count matches the member list
      and exactly one member is host. */
  predicate WellFormed(room: Room) {
    room.currentHeadCount == |room.userList| && HostCount(room.userList) == 1
  }
}
