/** Socket addressing shared by both gateways: group names, per-connection state,
    addressed emits and who receives them. */
module Sockets {
  import opened Wrappers
  import opened Entities

  /** A socket id. */
  type ConnId = string

  /** The lobby group every room-listing client joins. */
  const Lobby: string := "rooms"

  /** The group of one room: the template string `rooms/${id}`. */
  function RoomGroup(id: string): (g: string)
    ensures g != Lobby
  {
    assert |"rooms/" + id| >= 6;
    "rooms/" + id
  }

  /** Distinct room ids name distinct groups. */
  lemma RoomGroupInjective(a: string, b: string)
    requires RoomGroup(a) == RoomGroup(b)
    ensures a == b
  {
    assert a == RoomGroup(a)[6..];
    assert b == RoomGroup(b)[6..];
  }

  /** The decimal digit `d` as a character. */
  function DigitChar(d: nat): (c: char)
    requires d < 10
    ensures c as int - '0' as int == d
  {
    "0123456789"[d]
  }

  /** Every character of `s` is a decimal digit. */
  predicate AllDigits(s: string) {
    forall i :: 0 <= i < |s| ==> '0' <= s[i] <= '9'
  }

  /** The number a string of decimal digits denotes, most significant digit first. */
  function DigitsValue(s: string): nat
    requires AllDigits(s)
  {
    if s == [] then 0
    else
      assert AllDigits(s[..|s| - 1]);
      DigitsValue(s[..|s| - 1]) * 10 + (s[|s| - 1] as int - '0' as int)
  }

  /** The decimal digits of `n`, most significant first, without leading zeros. */
  function NatToString(n: nat): (s: string)
    ensures |s| >= 1
    ensures AllDigits(s)
    ensures s[0] == '0' <==> n == 0
  {
    if n < 10 then [DigitChar(n)] else NatToString(n / 10) + [DigitChar(n % 10)]
  }

  /** Reading the digits back gives the number that was written. */
  lemma {:induction false} NatToStringRoundTrip(n: nat)
    ensures DigitsValue(NatToString(n)) == n
  {
    var s := NatToString(n);
    if n < 10 {
      assert s[..|s| - 1] == [];
    } else {
      assert s[..|s| - 1] == NatToString(n / 10);
      NatToStringRoundTrip(n / 10);
    }
  }

  /** Distinct numbers are written differently. */
  lemma NatToStringInjective(a: nat, b: nat)
    requires NatToString(a) == NatToString(b)
    ensures a == b
  {
    NatToStringRoundTrip(a);
    NatToStringRoundTrip(b);
  }

  /** A JavaScript integer as a template string writes it: an optional minus sign
      followed by decimal digits. */
  predicate IsIntNumeral(s: string) {
    if |s| >= 1 && s[0] == '-' then |s| >= 2 && AllDigits(s[1..]) else |s| >= 1 && AllDigits(s)
  }

  /** The integer a numeral denotes. */
  function NumeralValue(s: string): int
    requires IsIntNumeral(s)
  {
    if s[0] == '-' then -(DigitsValue(s[1..]) as int) else DigitsValue(s)
  }

  /** A minus sign before a string of digits: the numeral of the negated number. */
  function Negated(digits: string): (s: string)
    requires |digits| >= 1 && AllDigits(digits)
    ensures IsIntNumeral(s) && s[0] == '-'
    ensures NumeralValue(s) == -(DigitsValue(digits) as int)
  {
    assert ("-" + digits)[1..] == digits;
    "-" + digits
  }

  /** How a JavaScript integer number is written into a template string: a minus
      sign exactly for negative numbers, then the digits of its magnitude, so that
      reading the numeral back gives the number. */
  function IntToString(n: int): (s: string)
    ensures IsIntNumeral(s)
    ensures s[0] == '-' <==> n < 0
    ensures NumeralValue(s) == n
  {
    if n < 0 then
      NatToStringRoundTrip(-n);
      Negated(NatToString(-n))
    else
      NatToStringRoundTrip(n);
      NatToString(n)
  }

  /** Distinct integers are written differently. */
  lemma IntToStringInjective(a: int, b: int)
    requires IntToString(a) == IntToString(b)
    ensures a == b
  {
  }

  /** The state the gateways keep per socket: the groups it has joined,
      `client['roomId']`, and `client.data.host` (false stands for `undefined`). */
  datatype Connection = Connection(groups: set<string>, roomId: Option<string>, host: bool)

  /** A socket just after it connected. */
  const Fresh: Connection := Connection({}, None, false)

  /** `client.join(g)`: the socket is in `g` afterwards; its other memberships,
      room id and host flag are untouched. */
  function Join(c: Connection, g: string): (r: Connection)
    ensures g in r.groups
    ensures forall h :: h != g ==> (h in r.groups <==> h in c.groups)
    ensures r.roomId == c.roomId && r.host == c.host
  {
    c.(groups := c.groups + {g})
  }

  /** `client.leave(g)`: the socket is not in `g` afterwards; its other
      memberships, room id and host flag are untouched. */
  function Leave(c: Connection, g: string): (r: Connection)
    ensures g !in r.groups
    ensures forall h :: h != g ==> (h in r.groups <==> h in c.groups)
    ensures r.roomId == c.roomId && r.host == c.host
  {
    c.(groups := c.groups - {g})
  }

  /** The three addressing forms the gateways use:
      `client.emit`, `server.to(g).emit` and `client.broadcast.to(g).emit`. */
  datatype Address = Self | Group(name: string) | GroupExceptSelf(name: string)

  /** The arguments an emit carries after its event name. */
  datatype Payload =
    | RoomBody(room: Room)
    | UserBody(user: User)
    | RoomIdBody(roomId: int)
    | GameBody(game: Game)
    | GameAndRoomIds(gameId: int, roomId: int)

  datatype Emit = Emit(to: Address, event: string, payload: Payload)

  /** An emit together with the sockets it reached. */
  datatype Delivery = Delivery(emit: Emit, recipients: set<ConnId>)

  /** The sockets currently in group `g`. */
  function Members(conns: map<ConnId, Connection>, g: string): (m: set<ConnId>)
    ensures m <= conns.Keys
    ensures forall c :: c in conns ==> (c in m <==> g in conns[c].groups)
  {
    set c | c in conns && g in conns[c].groups
  }

  /** Who receives an emit sent by `self` when the registry is `conns`. */
  function Recipients(conns: map<ConnId, Connection>, self: ConnId, to: Address): (r: set<ConnId>)
    ensures to.Self? ==> r == {self}
    ensures !to.Self? ==> r <= conns.Keys
    ensures !to.Self? ==> forall c :: c != self ==> (c in r <==> c in conns && to.name in conns[c].groups)
    ensures to.GroupExceptSelf? ==> self !in r
    ensures to.Group? ==> r == Members(conns, to.name)
    ensures to.GroupExceptSelf? ==> r == Members(conns, to.name) - {self}
  {
    match to
    case Self => {self}
    case Group(g) => Members(conns, g)
    case GroupExceptSelf(g) => Members(conns, g) - {self}
  }

  /** Send `e` from `self` with the registry as it is at that moment. */
  function Deliver(conns: map<ConnId, Connection>, self: ConnId, e: Emit): (d: Delivery)
    ensures d.emit == e
    ensures e.to.GroupExceptSelf? ==> self !in d.recipients
    ensures e.to.Self? ==> d.recipients == {self}
    ensures e.to.Group? ==> d.recipients == Members(conns, e.to.name)
    ensures e.to.GroupExceptSelf? ==> d.recipients == Members(conns, e.to.name) - {self}
    ensures d.recipients <= conns.Keys + {self}
  {
    Delivery(e, Recipients(conns, self, e.to))
  }

  /** After `self` leaves `g` (whatever else changes in its state), the group is
      what it was without `self`. */
  lemma LeavingRemovesOnlySelf(conns: map<ConnId, Connection>, self: ConnId, c: Connection, g: string)
    requires self in conns
    requires c.groups == conns[self].groups - {g}
    ensures Members(conns[self := c], g) == Members(conns, g) - {self}
  {
  }

  /** After `self` joins `g`, the group is what it was plus `self`. */
  lemma JoiningAddsOnlySelf(conns: map<ConnId, Connection>, self: ConnId, g: string)
    requires self in conns
    ensures Members(conns[self := Join(conns[self], g)], g) == Members(conns, g) + {self}
  {
  }

  /** Changing one socket's state without touching its membership of `h`
      leaves group `h` as it was. */
  lemma OtherGroupUnchanged(conns: map<ConnId, Connection>, self: ConnId, c: Connection, h: string)
    requires self in conns
    requires h in c.groups <==> h in conns[self].groups
    ensures Members(conns[self := c], h) == Members(conns, h)
  {
  }
}
