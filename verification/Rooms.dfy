/** Game rooms and who is in them (opensnap/core/rooms.py). */
module Rooms {

  datatype Room = Room(
    name: string,
    password: string,
    rules: nat,
    maxPlayers: int,
    lobbyId: int,
    host: int,
    members: set<int>)

  datatype Table = Table(rooms: map<int, Room>, nextId: int)

  const NO_ROOMS := Table(map[], 1)

  const NO_ROOM := Room("", "", 0, 0, 0, 0, {})

  function Created(t: Table, room: Room): Table {
    Table(t.rooms[t.nextId := room.(members := {room.host})], t.nextId + 1)
  }

  predicate Admits(t: Table, roomId: int, sessionId: int) {
    && roomId in t.rooms
    && (|t.rooms[roomId].members| < t.rooms[roomId].maxPlayers || sessionId in t.rooms[roomId].members)
  }

  function Entered(t: Table, roomId: int, sessionId: int): Table {
    if Admits(t, roomId, sessionId) then
      t.(rooms := t.rooms[roomId := t.rooms[roomId].(members := t.rooms[roomId].members + {sessionId})])
    else t
  }

  function Vacated(t: Table, roomId: int, sessionId: int): Table {
    if roomId !in t.rooms then t
    else
      var rest := t.rooms[roomId].members - {sessionId};
      t.(rooms := if rest == {} then t.rooms - {roomId} else t.rooms[roomId := t.rooms[roomId].(members := rest)])
  }

  function Ruled(t: Table, roomId: int, rules: nat): Table {
    if roomId in t.rooms then t.(rooms := t.rooms[roomId := t.rooms[roomId].(rules := rules)]) else t
  }

  /** Ids were handed out in order, no stored room is empty, and none holds more than `cap` or its own limit. */
  ghost predicate WellKept(t: Table, cap: nat) {
    && t.nextId >= 1
    && forall r :: r in t.rooms ==>
         && 1 <= r < t.nextId
         && t.rooms[r].members != {} && |t.rooms[r].members| <= t.rooms[r].maxPlayers <= cap
  }

  lemma ChangesKeepWellKept(t: Table, cap: nat, room: Room, roomId: int, sessionId: int, rules: nat)
    requires WellKept(t, cap)
    ensures 1 <= room.maxPlayers <= cap ==> WellKept(Created(t, room), cap)
    ensures WellKept(Entered(t, roomId, sessionId), cap)
    ensures WellKept(Vacated(t, roomId, sessionId), cap)
    ensures WellKept(Ruled(t, roomId, rules), cap)
  {
    if roomId in t.rooms {
      var members := t.rooms[roomId].members;
      SubsetCount(members - {sessionId}, members);
      if sessionId in members { assert members + {sessionId} == members; }
    }
  }

  lemma {:induction false} SubsetCount<T>(a: set<T>, b: set<T>)
    requires a <= b
    ensures |a| <= |b|
  {
    if x :| x in a {
      SubsetCount(a - {x}, b - {x});
    } else {
      assert a == {};
    }
  }

  /** A room that is still there is the same room: same lobby, name, host and limit; a new one has a new id. */
  ghost predicate Continues(before: Table, after: Table) {
    && before.nextId <= after.nextId
    && forall r :: r in after.rooms ==>
         if r < before.nextId then
           && r in before.rooms
           && after.rooms[r].(rules := before.rooms[r].rules, members := before.rooms[r].members) == before.rooms[r]
         else r < after.nextId
  }

  /** No change of the table gives an old id to a new room or moves a room to another lobby. */
  lemma IdsAreNeverReused(t: Table, cap: nat, room: Room, roomId: int, sessionId: int, rules: nat)
    requires WellKept(t, cap)
    ensures Continues(t, Created(t, room)) && Continues(t, Entered(t, roomId, sessionId))
    ensures Continues(t, Vacated(t, roomId, sessionId)) && Continues(t, Ruled(t, roomId, rules))
    ensures t.nextId !in t.rooms && t.nextId in Created(t, room).rooms
  {
  }

  lemma ContinuesIsTransitive(a: Table, b: Table, c: Table)
    requires Continues(a, b) && Continues(b, c)
    ensures Continues(a, c)
  {
  }

  class RoomRegistry {
    var rooms: map<int, Room>
    var nextId: int

    constructor ()
      ensures State() == NO_ROOMS
    {
      rooms, nextId := map[], 1;
    }

    function State(): Table
      reads this
    {
      Table(rooms, nextId)
    }

    method CreateRoom(name: string, password: string, rules: nat, maxPlayers: int, lobbyId: int, host: int)
      returns (roomId: int)
      modifies this
      ensures State() == Created(old(State()), Room(name, password, rules, maxPlayers, lobbyId, host, {host}))
      ensures roomId == old(nextId)
    {
      roomId := nextId;
      rooms := rooms[roomId := Room(name, password, rules, maxPlayers, lobbyId, host, {host})];
      nextId := nextId + 1;
    }

    method Join(roomId: int, sessionId: int) returns (joined: bool)
      modifies this`rooms
      ensures State() == Entered(old(State()), roomId, sessionId)
      ensures joined == Admits(old(State()), roomId, sessionId)
    {
      if roomId !in rooms {
        return false;
      }
      var room := rooms[roomId];
      if |room.members| >= room.maxPlayers && sessionId !in room.members {
        return false;
      }
      rooms := rooms[roomId := room.(members := room.members + {sessionId})];
      return true;
    }

    method Leave(roomId: int, sessionId: int)
      modifies this`rooms
      ensures State() == Vacated(old(State()), roomId, sessionId)
    {
      if roomId !in rooms {
        return;
      }
      rooms := rooms[roomId := rooms[roomId].(members := rooms[roomId].members - {sessionId})];
      if rooms[roomId].members == {} {
        rooms := rooms - {roomId};
      }
      assert rooms == Vacated(old(State()), roomId, sessionId).rooms;
    }

    method SetRules(roomId: int, rules: nat)
      modifies this`rooms
      ensures State() == Ruled(old(State()), roomId, rules)
    {
      if roomId in rooms {
        rooms := rooms[roomId := rooms[roomId].(rules := rules)];
      }
    }
  }
}
