/** Room membership in the Outbreak lobby is an exact index of where the sessions are. */
module OutbreakRooms {
  import opened Snap
  import opened Sessions
  import opened Login
  import opened Rooms
  import opened Outbreak

  predicate Holds(w: World, r: int, s: int) {
    r in w.rooms.rooms && s in w.rooms.rooms[r].members
  }

  /** A session is in room `r` exactly when room `r` lists it, and nothing else is listed. */
  ghost predicate Index(w: World) {
    && (forall s :: s in w.reg.byId ==>
          w.reg.byId[s].roomId >= 0 && (w.reg.byId[s].roomId > 0 ==> Holds(w, w.reg.byId[s].roomId, s)))
    && (forall r, s :: Holds(w, r, s) ==> s in w.reg.byId && w.reg.byId[s].roomId == r)
  }

  ghost predicate Good(w: World) {
    Sound(w.reg) && WellKept(w.rooms, MAX_ROOM_PLAYERS) && Index(w)
  }

  /** What `Index` says, as one equivalence over every pair. */
  lemma IndexIsExact(w: World, s: int, r: int)
    requires Good(w) && r > 0
    ensures (s in w.reg.byId && w.reg.byId[s].roomId == r) <==> Holds(w, r, s)
    ensures r in w.rooms.rooms ==> RoomMembers(w.reg, r) == w.rooms.rooms[r].members
  {
    if r in w.rooms.rooms {
      forall x ensures x in RoomMembers(w.reg, r) <==> x in w.rooms.rooms[r].members {
        assert x in w.rooms.rooms[r].members <==> Holds(w, r, x);
      }
    }
  }

  lemma OutOfRoomHolds(w: World, s: int, r: int, x: int)
    requires Good(w) && s in w.reg.byId
    ensures Holds(OutOfRoom(w, s), r, x) <==> Holds(w, r, x) && x != s
  {
    if Holds(w, r, s) { assert w.reg.byId[s].roomId == r; }
    if Holds(w, r, x) && x != s { assert x in w.rooms.rooms[r].members - {s}; }
  }

  lemma OutOfRoomKeepsGood(w: World, s: int)
    requires Good(w) && s in w.reg.byId
    ensures Good(OutOfRoom(w, s)) && s in OutOfRoom(w, s).reg.byId && OutOfRoom(w, s).reg.byId[s].roomId == 0
    ensures Good(LeftRoom(w, s)) && s in LeftRoom(w, s).reg.byId && LeftRoom(w, s).reg.byId[s].roomId == 0
  {
    var w' := OutOfRoom(w, s);
    ChangesKeepWellKept(w.rooms, MAX_ROOM_PLAYERS, NO_ROOM, w.reg.byId[s].roomId, s, 0);
    forall r, x ensures Holds(w', r, x) <==> Holds(w, r, x) && x != s { OutOfRoomHolds(w, s, r, x); }
    hide WellKept, Sound;
    PlayersDoNotMatter(w', LeftRoom(w, s));
  }

  lemma PlayersDoNotMatter(w: World, w': World)
    requires w'.reg == w.reg && w'.rooms == w.rooms
    ensures Good(w') <==> Good(w)
  {
    forall r, x ensures Holds(w', r, x) <==> Holds(w, r, x) {}
  }

  lemma CreatingKeepsIndex(w: World, s: int, room: Room)
    requires Good(w) && s in w.reg.byId && w.reg.byId[s].roomId == 0 && room.host == s
    ensures Index(World(WithRoom(w.reg, s, w.rooms.nextId), Created(w.rooms, room), w.players))
  {
    var w' := World(WithRoom(w.reg, s, w.rooms.nextId), Created(w.rooms, room), w.players);
    forall r, x ensures Holds(w', r, x) <==> if r == w.rooms.nextId then x == s else Holds(w, r, x) {}
  }

  lemma EnteringKeepsIndex(w: World, s: int, roomId: int)
    requires Good(w) && s in w.reg.byId && w.reg.byId[s].roomId == 0 && Admits(w.rooms, roomId, s)
    ensures Index(World(WithRoom(w.reg, s, roomId), Entered(w.rooms, roomId, s), w.players))
  {
    var w' := World(WithRoom(w.reg, s, roomId), Entered(w.rooms, roomId, s), w.players);
    forall r, x ensures Holds(w', r, x) <==> Holds(w, r, x) || (r == roomId && x == s) {}
  }

  lemma SameRoomsKeepIndex(w: World, w': World)
    requires Index(w) && w'.reg.byId.Keys == w.reg.byId.Keys
    requires forall s :: s in w'.reg.byId ==> w'.reg.byId[s].roomId == w.reg.byId[s].roomId
    requires w'.rooms.rooms.Keys == w.rooms.rooms.Keys
    requires forall r :: r in w'.rooms.rooms ==> w'.rooms.rooms[r].members == w.rooms.rooms[r].members
    ensures Index(w')
  {
    forall r, x ensures Holds(w', r, x) <==> Holds(w, r, x) {}
  }

  lemma CreatingKeepsGood(c: Config, w: World, s: int, command: Command)
    requires Good(w) && c.perRoom >= 1 && s in w.reg.byId && w.reg.byId[s].roomId == 0 && command.CreateRoom?
    ensures Good(AfterDeparture(c, w, s, command))
  {
    var limit := Limit(c, command.wanted);
    var room := Room(command.name, command.password, command.rules, limit, w.reg.byId[s].lobbyId, s, {s});
    assert 1 <= limit <= MAX_ROOM_PLAYERS;
    ChangesKeepWellKept(w.rooms, MAX_ROOM_PLAYERS, room, 0, 0, 0);
    CreatingKeepsIndex(w, s, room);
  }

  lemma EnteringKeepsGood(c: Config, w: World, s: int, command: Command)
    requires Good(w) && s in w.reg.byId && w.reg.byId[s].roomId == 0 && command.JoinRoom?
    ensures Good(AfterDeparture(c, w, s, command))
  {
    ChangesKeepWellKept(w.rooms, MAX_ROOM_PLAYERS, NO_ROOM, command.roomId, s, 0);
    if Admits(w.rooms, command.roomId, s) { EnteringKeepsIndex(w, s, command.roomId); }
  }

  lemma AfterDepartureKeepsGood(c: Config, w: World, s: int, command: Command)
    requires Good(w) && c.perRoom >= 1 && s in w.reg.byId && w.reg.byId[s].roomId == 0
    ensures Good(AfterDeparture(c, w, s, command))
  {
    match command
    case CreateRoom(_, _, _, _) => CreatingKeepsGood(c, w, s, command);
    case JoinRoom(_, _) => EnteringKeepsGood(c, w, s, command);
    case _ => SameRoomsKeepIndex(w, AfterDeparture(c, w, s, command));
  }

  lemma StayingKeepsGood(c: Config, w: World, s: int, command: Command)
    requires Good(w) && s in w.reg.byId
    ensures Good(Staying(c, w, s, command))
  {
    if command.ChangeRules? && command.word.Some? {
      ChangesKeepWellKept(w.rooms, MAX_ROOM_PLAYERS, NO_ROOM, w.reg.byId[s].roomId, s, command.word.value);
    }
    SameRoomsKeepIndex(w, Staying(c, w, s, command));
    hide Index;
  }

  lemma RemovingKeepsGood(w: World, s: int)
    requires Good(w) && s in w.reg.byId && w.reg.byId[s].roomId == 0
    ensures Good(w.(reg := Removed(w.reg, s)))
  {
    var w' := w.(reg := Removed(w.reg, s));
    forall r, x ensures Holds(w', r, x) <==> Holds(w, r, x) {}
    assert forall r :: !Holds(w, r, s) || r == 0;
  }

  lemma EndingKeepsGood(c: Config, w: World, s: int)
    requires Good(w) && s in w.reg.byId
    ensures Good(Ended(c, w, s))
  {
    OutOfRoomKeepsGood(w, s);
    SameRoomsKeepIndex(LeftRoom(w, s), Forgotten(c, w, s));
    RemovingKeepsGood(Forgotten(c, w, s), s);
  }

  /** Adopting the login throws a session out of the registry that some room still lists. */
  predicate Orphans(w: World, h: Handoff) {
    && Adopts(w.reg, h) && Superseded(w.reg, h).Some?
    && Superseded(w.reg, h).value in w.reg.byId && w.reg.byId[Superseded(w.reg, h).value].roomId > 0
  }

  /** A login keeps the index exact exactly when it orphans no room member. */
  lemma SeatingIsExactIff(w: World, h: Handoff, endpoint: Endpoint, profile: Payload)
    requires Good(w) && (h.sessionId in w.reg.byId ==> w.reg.byId[h.sessionId].roomId == 0)
    ensures Good(Seated(w, h, endpoint, profile)) <==> !Orphans(w, h)
  {
    var w' := Seated(w, h, endpoint, profile);
    SeatingPlaces(w.reg, h, endpoint);
    if Adopts(w.reg, h) { AdoptingPlaces(w.reg, h); }
    hide SeatedRegistry, Adopted, Superseded, Adopts, Sound;
    forall r, x ensures Holds(w', r, x) <==> Holds(w, r, x) {}
    if Orphans(w, h) {
      var x := Superseded(w.reg, h).value;
      assert Holds(w', w.reg.byId[x].roomId, x) && x !in w'.reg.byId;
    } else {
      forall r, x | Holds(w', r, x) ensures x in w'.reg.byId && w'.reg.byId[x].roomId == r {
        assert Holds(w, r, x);
      }
    }
  }

  predicate OrphaningLogin(c: Config, w: World, op: Op) {
    && op.Login? && op.handoff.Some? && op.accepted
    && Orphans(StaleEnded(c, Cleared(w, op.handoff.value), op.handoff.value, op.endpoint), op.handoff.value)
  }

  lemma ClearingKeepsGood(c: Config, w: World, h: Handoff, endpoint: Endpoint)
    requires Good(w)
    ensures var w1 := Cleared(w, h); var w2 := StaleEnded(c, w1, h, endpoint);
            && Good(w1) && Good(w2)
            && (h.sessionId in w2.reg.byId ==> w2.reg.byId[h.sessionId].roomId == 0)
  {
    if h.sessionId in w.reg.byId { OutOfRoomKeepsGood(w, h.sessionId); }
    var w1 := Cleared(w, h);
    if Stale(w1.reg, h, endpoint).Some? { EndingKeepsGood(c, w1, Stale(w1.reg, h, endpoint).value); }
  }

  /** Every step keeps the index exact, except a login that supersedes a room member; that one never does. */
  lemma StepKeepsIndexIff(c: Config, w: World, op: Op)
    requires Good(w) && c.perRoom >= 1
    ensures Good(Next(c, w, op)) <==> !OrphaningLogin(c, w, op)
  {
    match op
    case Request(sessionId, endpoint, command) =>
      var actor := Actor(w.reg, sessionId, endpoint);
      if actor.Some? {
        var s := actor.value;
        if Departs(c, w, s, command) {
          OutOfRoomKeepsGood(w, s);
          AfterDepartureKeepsGood(c, LeftRoom(w, s), s, command);
        } else {
          StayingKeepsGood(c, w, s, command);
        }
      }
    case Login(h, accepted, endpoint, profile) =>
      if h.Some? {
        ClearingKeepsGood(c, w, h.value, endpoint);
        if accepted {
          SeatingIsExactIff(StaleEnded(c, Cleared(w, h.value), h.value, endpoint), h.value, endpoint, profile);
        }
      }
    case Timeout(sessionId, endpoint) =>
      var actor := Actor(w.reg, sessionId, endpoint);
      if actor.Some? { EndingKeepsGood(c, w, actor.value); }
  }

  /** It takes no more than a login whose bootstrap came from a port that is another player's by now. */
  lemma OrphaningHappens(c: Config, w: World, x: int, h: Handoff, endpoint: Endpoint, profile: Payload)
    requires Good(w) && c.perRoom >= 1 && x in w.reg.byId && w.reg.byId[x].roomId > 0
    requires h.endpoint in w.reg.byEndpoint && w.reg.byEndpoint[h.endpoint] == x
    requires h.sessionId !in w.reg.byId && endpoint !in w.reg.byEndpoint
    ensures !Good(Next(c, w, Login(Some(h), true, endpoint, profile)))
  {
    StepKeepsIndexIff(c, w, Login(Some(h), true, endpoint, profile));
  }

  // Whole runs.

  function After(c: Config, ops: seq<Op>): World {
    if ops == [] then START else Next(c, After(c, ops[..|ops| - 1]), ops[|ops| - 1])
  }

  ghost predicate NoneOrphaned(c: Config, ops: seq<Op>) {
    forall i :: 0 <= i < |ops| ==> !OrphaningLogin(c, After(c, ops[..i]), ops[i])
  }

  /** In every reachable state membership is exact, no room is empty and none holds more than four. */
  lemma {:induction false} MembershipIsExact(c: Config, ops: seq<Op>)
    requires c.perRoom >= 1 && NoneOrphaned(c, ops)
    ensures Good(After(c, ops))
  {
    if ops != [] {
      var n := |ops| - 1;
      forall i | 0 <= i < n ensures !OrphaningLogin(c, After(c, ops[..n][..i]), ops[..n][i]) {
        assert ops[..n][..i] == ops[..i];
      }
      MembershipIsExact(c, ops[..n]);
      StepKeepsIndexIff(c, After(c, ops[..n]), ops[n]);
    }
  }
}
