/**
  Who gets into a Town or a quest room and what a Town row shows, said of the
  rooms' and the hunters' own fields.
 */
module MonsterHunterAdmission {
  import opened Snap
  import opened Sessions
  import opened Login
  import opened Rooms
  import opened RoomList
  import opened MonsterHunter
  import opened MonsterHunterTowns
  import opened MonsterHunterList

  lemma AskedActs(c: Config, w: World, s: int, endpoint: Endpoint, command: Command)
    requires s in w.reg.byId
    ensures Next(c, w, Request(s, endpoint, command)) == Handled(c, w, s, command)
  {
  }

  /** The room meant: after a return from a quest, the Town when the quest room's id is named. */
  predicate Means(w: World, s: int, named: int, r: int) {
    if s in w.players && w.players[s].alias.Some? && w.players[s].alias.value.0 == named
    then r == w.players[s].alias.value.1
    else r == named
  }

  /** The hunter is let into the room: it is stored, and lists the hunter already or has a place left. */
  predicate HasPlaceFor(t: Table, r: int, s: int) {
    && r in t.rooms
    && (s in t.rooms[r].members || |t.rooms[r].members| < t.rooms[r].maxPlayers)
  }

  /** Leaving wherever the hunter is does not change the room it wants to join. */
  lemma TargetStays(c: Config, w: World, s: int, r: int)
    requires Good(c, w) && s in w.reg.byId && w.reg.byId[s].roomId != r && r in w.rooms.rooms
    ensures var w1 := Detached(w, s, Lists(w.rooms, r, s) || !IsTown(w.rooms.rooms[r]));
            && r in w1.rooms.rooms && w1.rooms.rooms[r] == w.rooms.rooms[r]
            && s in w1.reg.byId && w1.reg.byId[s].roomId == 0
  {
    assert HunterOk(w, s);
    var keep := Lists(w.rooms, r, s) || !IsTown(w.rooms.rooms[r]);
    var w1 := RoomLeft(w, s, keep);
    assert r in w1.rooms.rooms && w1.rooms.rooms[r] == w.rooms.rooms[r];
    if !keep { assert r !in ListingTowns(w1, s); }
  }

  /**
    A join succeeds exactly when the room meant has a place for the hunter, who is
    then one of its members; a room that is full leaves the hunter in no room, an
    unknown one leaves everything as it was.
   */
  lemma JoinRoomAdmitsIff(c: Config, w: World, s: int, endpoint: Endpoint, named: int, r: int)
    requires Good(c, w) && s in w.reg.byId && Means(w, s, named, r) && w.reg.byId[s].roomId != r
    ensures var w' := Next(c, w, Request(s, endpoint, JoinRoom(named)));
            && s in w'.reg.byId
            && (w'.reg.byId[s].roomId == r <==> HasPlaceFor(w.rooms, r, s))
            && (HasPlaceFor(w.rooms, r, s) ==>
                  r in w'.rooms.rooms
                  && w'.rooms.rooms[r] == w.rooms.rooms[r].(members := w.rooms.rooms[r].members + {s}))
            && (r in w.rooms.rooms && !HasPlaceFor(w.rooms, r, s) ==> w'.reg.byId[s].roomId == 0)
            && (r !in w.rooms.rooms ==> w' == w)
  {
    AskedActs(c, w, s, endpoint, JoinRoom(named));
    assert HunterOk(w, s);
    assert ServerRoomId(w, s, named) == r;
    if r in w.rooms.rooms {
      TargetStays(c, w, s, r);
      hide Detached, HunterOk;
    }
  }

  /** The Towns of one Area with one category, the three bits above the low 24 of the rules word. */
  function TownsLike(t: Table, lobby: int, rules: nat): set<int> {
    set r | r in t.rooms && t.rooms[r].lobbyId == lobby && t.rooms[r].rules / 4 % 2 == 1
            && t.rooms[r].rules / 0x1000000 % 8 == rules / 0x1000000 % 8
  }

  /**
    A Town is refused exactly when its Area holds 21 of its category, and then
    nothing changes; otherwise the hunter is alone in a new room of its Area with
    what it asked for, for at least one player and no more than configured.
   */
  lemma CreateRoomIff(c: Config, w: World, s: int, endpoint: Endpoint, name: string, password: string, rules: nat,
      wanted: nat)
    requires Good(c, w) && s in w.reg.byId && c.perRoom >= 1
    ensures var w' := Next(c, w, Request(s, endpoint, CreateRoom(name, password, rules, wanted)));
            if rules / 4 % 2 == 1 && |TownsLike(w.rooms, w.reg.byId[s].lobbyId, rules)| >= 21 then w' == w
            else
              var r := w.rooms.nextId;
              && r !in w.rooms.rooms && r in w'.rooms.rooms && s in w'.reg.byId && w'.reg.byId[s].roomId == r
              && var room := w'.rooms.rooms[r];
                 && room.name == name && room.password == password && room.rules == rules
                 && room.lobbyId == w.reg.byId[s].lobbyId && room.host == s && room.members == {s}
                 && 1 <= room.maxPlayers <= c.perRoom
                 && (1 <= wanted <= c.perRoom ==> room.maxPlayers == wanted)
                 && (wanted > c.perRoom ==> room.maxPlayers == c.perRoom)
  {
    var command := CreateRoom(name, password, rules, wanted);
    AskedActs(c, w, s, endpoint, command);
    var lobby := w.reg.byId[s].lobbyId;
    assert TownsLike(w.rooms, lobby, rules)
        == set r | r in w.rooms.rooms && w.rooms.rooms[r].lobbyId == lobby && IsTown(w.rooms.rooms[r])
                   && Category(w.rooms.rooms[r].rules) == Category(rules);
    if !(HasFlag(rules, TOWN_RULES_FLAG) && CategoryFull(w.rooms, lobby, rules)) {
      NewRoomOf(c, w, s, name, password, rules, wanted);
    }
  }

  lemma NewRoomOf(c: Config, w: World, s: int, name: string, password: string, rules: nat, wanted: nat)
    requires Good(c, w) && s in w.reg.byId && c.perRoom >= 1
    requires !(HasFlag(rules, TOWN_RULES_FLAG) && CategoryFull(w.rooms, w.reg.byId[s].lobbyId, rules))
    ensures var w' := RoomCreated(c, w, s, name, password, rules, wanted); var r := w.rooms.nextId;
            && r !in w.rooms.rooms && r in w'.rooms.rooms && s in w'.reg.byId && w'.reg.byId[s].roomId == r
            && w'.rooms.rooms[r]
               == Room(name, password, rules, Limit(c, wanted), w.reg.byId[s].lobbyId, s, {s})
  {
    hide CategoryFull;
    DetachedKeepsPlaces(w, s, !HasFlag(rules, TOWN_RULES_FLAG));
  }

  lemma DetachedKeepsPlaces(w: World, s: int, keep: bool)
    requires s in w.reg.byId
    ensures var w1 := Detached(w, s, keep);
            && s in w1.reg.byId && w1.reg.byId[s].lobbyId == w.reg.byId[s].lobbyId
            && w1.rooms.nextId == w.rooms.nextId
  {
  }

  lemma JoinAreaIff(c: Config, w: World, s: int, endpoint: Endpoint, area: int, full: bool)
    requires Good(c, w) && s in w.reg.byId
    ensures var w' := Next(c, w, Request(s, endpoint, JoinArea(area, full)));
            if area in c.areas && !full then
              && s in w'.reg.byId && w'.reg.byId[s].lobbyId == area && w'.reg.byId[s].roomId == 0
              && forall r :: r in w'.rooms.rooms ==> s !in w'.rooms.rooms[r].members
            else w' == w
  {
    AskedActs(c, w, s, endpoint, JoinArea(area, full));
    if area in c.areas && !full { NobodyLists(c, w, s); }
  }

  /** A hunter who leaves for good is in no room any more. */
  lemma NobodyLists(c: Config, w: World, s: int)
    requires Good(c, w) && s in w.reg.byId
    ensures var w1 := Detached(w, s, false);
            && s in w1.reg.byId && w1.reg.byId[s].roomId == 0
            && forall r :: r in w1.rooms.rooms ==> s !in w1.rooms.rooms[r].members
  {
    assert HunterOk(w, s);
    var left := RoomLeft(w, s, false);
    forall r | r in Detached(w, s, false).rooms.rooms ensures s !in Detached(w, s, false).rooms.rooms[r].members {
      if Lists(left.rooms, r, s) {
        assert Lists(w.rooms, r, s) && r != w.reg.byId[s].roomId;
        assert r in ListingTowns(left, s);
      }
    }
  }

  /** The hunters a Town lists are those in it and those of its Area away from it, each once. */
  lemma TownMembers(c: Config, w: World, r: int)
    requires Good(c, w) && r in w.rooms.rooms
    ensures forall p :: p in w.reg.byId && w.reg.byId[p].roomId == r ==> p in w.rooms.rooms[r].members
    ensures forall p :: p in w.rooms.rooms[r].members ==>
              && p in w.reg.byId && w.reg.byId[p].lobbyId == w.rooms.rooms[r].lobbyId
              && (w.reg.byId[p].roomId != r ==> w.rooms.rooms[r].rules / 4 % 2 == 1)
  {
    forall p | p in w.reg.byId && w.reg.byId[p].roomId == r ensures p in w.rooms.rooms[r].members {
      assert HunterOk(w, p);
    }
    forall p | p in w.rooms.rooms[r].members
      ensures && p in w.reg.byId && w.reg.byId[p].lobbyId == w.rooms.rooms[r].lobbyId
              && (w.reg.byId[p].roomId != r ==> w.rooms.rooms[r].rules / 4 % 2 == 1)
    {
      assert HunterOk(w, p) && Lists(w.rooms, r, p);
    }
  }

  /**
    A room is in the Town directory exactly when it is a Town of an Area whose
    quest bit is clear; its row counts everybody it lists, away or not, against
    the limit shown beside them.
   */
  lemma TownRowShows(c: Config, w: World, r: int)
    requires Good(c, w)
    ensures r in ListedTowns(c, w.rooms) <==>
            && r in w.rooms.rooms && w.rooms.rooms[r].lobbyId in c.areas
            && w.rooms.rooms[r].rules / 4 % 2 == 1 && w.rooms.rooms[r].rules / 0x40000000 % 2 == 0
    ensures r in ListedTowns(c, w.rooms) ==>
              var listed, room := ListedTowns(c, w.rooms)[r], w.rooms.rooms[r];
              && listed.area == room.lobbyId && listed.row.roomId == r && listed.row.name == room.name
              && listed.row.rules == room.rules && listed.row.maxPlayers == room.maxPlayers
              && listed.row.users == |room.members| && 1 <= listed.row.users <= listed.row.maxPlayers <= c.perRoom
              && (set p | p in w.reg.byId && w.reg.byId[p].roomId == r) <= room.members
  {
    if r in w.rooms.rooms {
      TownMembers(c, w, r);
      var listed, rooms := ListedTowns(c, w.rooms), w.rooms.rooms;
      assert r in listed <==> IsListed(c, rooms[r]);
      var inside := set p | p in w.reg.byId && w.reg.byId[p].roomId == r;
      forall p | p in inside ensures p in rooms[r].members {
        assert p in w.reg.byId && w.reg.byId[p].roomId == r;
      }
      assert rooms[r].members != {} && |rooms[r].members| <= rooms[r].maxPlayers <= c.perRoom;
    }
  }

  // Getting out.

  /** In no room, and listed by none. */
  predicate InNoRoom(w: World, s: int) {
    && (s in w.reg.byId ==> w.reg.byId[s].roomId == 0)
    && forall r :: r in w.rooms.rooms ==> s !in w.rooms.rooms[r].members
  }

  /** Leaving the Area, logging out and being timed out always succeed, and end the Town listing with the stay. */
  lemma GettingOut(c: Config, w: World, s: int, endpoint: Endpoint)
    requires Good(c, w) && s in w.reg.byId
    ensures var w' := Next(c, w, Request(s, endpoint, Leave(true)));
            && s in w'.reg.byId && InNoRoom(w', s) && w'.reg.byId[s].lobbyId == 0 && w'.players.Keys == w.players.Keys
    ensures var w' := Next(c, w, Request(s, endpoint, Logout));
            && s in w'.reg.byId && InNoRoom(w', s) && w'.reg.byId[s].lobbyId == 0
            && w'.players.Keys == w.players.Keys - {s}
    ensures var w' := Next(c, w, Timeout(s, endpoint));
            && w'.reg.byId.Keys == w.reg.byId.Keys - {s} && InNoRoom(w', s)
            && w'.players.Keys == w.players.Keys - {s}
  {
    NobodyLists(c, w, s);
    AskedActs(c, w, s, endpoint, Leave(true));
    AskedActs(c, w, s, endpoint, Logout);
    DetachedKeepsTheRest(w, s);
    hide Detached, Good;
  }

  lemma DetachedKeepsTheRest(w: World, s: int)
    requires s in w.reg.byId
    ensures var w1 := Detached(w, s, false);
            w1.players.Keys == w.players.Keys && w1.reg.byId.Keys == w.reg.byId.Keys
  {
  }

  predicate StaysPut(w: World, w': World, p: int) {
    && (p in w'.reg.byId <==> p in w.reg.byId)
    && (p in w.reg.byId ==> w'.reg.byId[p] == w.reg.byId[p])
    && (p in w'.players <==> p in w.players)
    && (p in w.players ==> w'.players[p] == w.players[p])
  }

  lemma DetachingMovesOne(w: World, s: int, keep: bool, p: int)
    requires s in w.reg.byId && p != s
    ensures s in Detached(w, s, keep).reg.byId && StaysPut(w, Detached(w, s, keep), p)
  {
  }

  /** A request moves nobody but its sender. */
  lemma OnlyTheSenderMoves(c: Config, w: World, s: int, endpoint: Endpoint, command: Command, p: int)
    requires s in w.reg.byId && p != s
    ensures StaysPut(w, Next(c, w, Request(s, endpoint, command)), p)
  {
    AskedActs(c, w, s, endpoint, command);
    DetachingMovesOne(w, s, true, p);
    DetachingMovesOne(w, s, false, p);
    hide Detached, Next, CategoryFull, IsDeparting, ServerRoomId, OriginTown, IsQuestReturn, Admits;
  }

  /** A room that is no Town and whose quest has started. */
  predicate OnAStartedQuest(w: World, p: int) {
    && p in w.reg.byId && w.reg.byId[p].roomId in w.rooms.rooms
    && var rules := w.rooms.rooms[w.reg.byId[p].roomId].rules;
       rules / 4 % 2 == 0 && rules / 0x40000000 % 2 == 1
  }

  /** A hunter on a started quest, or in no Area, is sent no Town event, whoever acts or is timed out. */
  lemma NobodyOnAQuestIsTold(c: Config, w: World, op: Op, p: int)
    requires Good(c, w) && c.perRoom >= 1 && (op.Request? || op.Timeout?)
    requires var w' := Next(c, w, op);
             OnAStartedQuest(w', p) || (p in w'.reg.byId && w'.reg.byId[p].lobbyId !in c.areas)
    ensures Sent(c, w, op, p) == []
  {
    StepKeepsRooms(c, w, op);
    var w' := Next(c, w, op);
    assert OnAStartedQuest(w', p) ==> InStartedQuest(w', p);
    match op
    case Request(_, _, _) => hide Next;
    case Timeout(sessionId, endpoint) =>
      var s := Actor(w.reg, sessionId, endpoint);
      if s.Some? {
        var w1 := Forgotten(w, s.value);
        assert w'.rooms == w1.rooms && w'.reg == Removed(w1.reg, s.value);
        hide Forgotten;
      }
  }

  // The quest room's id as a name of the Town.

  /**
    When a return moves the hunter out of its quest room, the quest room's id
    means from then on the Town it is in; whatever takes it out of a room again
    ends that.
   */
  lemma QuestIdNamesTheTown(c: Config, w: World, s: int, endpoint: Endpoint, rules: nat, named: int, r: int)
    requires Good(c, w) && s in w.reg.byId && s in w.players && w.reg.byId[s].roomId > 0
    ensures var quest, w' := w.reg.byId[s].roomId, Next(c, w, Request(s, endpoint, ChangeRules(Some(rules))));
            && s in w'.reg.byId
            && (w'.reg.byId[s].roomId != quest ==>
                  (Means(w', s, quest, r) <==> r == w'.reg.byId[s].roomId)
                  && (named != quest ==> (Means(w', s, named, r) <==> r == named)))
            && (w'.reg.byId[s].roomId == quest ==> w'.players == w.players)
    ensures forall leaveArea :: var w' := Next(c, w, Request(s, endpoint, Leave(leaveArea)));
              Means(w', s, named, r) <==> r == named
  {
    AskedActs(c, w, s, endpoint, ChangeRules(Some(rules)));
    forall leaveArea
      ensures Means(Next(c, w, Request(s, endpoint, Leave(leaveArea))), s, named, r) <==> r == named
    {
      AskedActs(c, w, s, endpoint, Leave(leaveArea));
    }
  }

  /** A departure is announced by the profile or by the preparation, and forgotten once the hunter has left. */
  lemma DepartureIsAnnounced(c: Config, w: World, s: int, endpoint: Endpoint, departing: bool)
    requires s in w.reg.byId && s in w.players
    ensures var w' := Next(c, w, Request(s, endpoint, PublishProfile(departing)));
            IsDeparting(w', s) <==> departing || w.players[s].preparing
    ensures IsDeparting(Next(c, w, Request(s, endpoint, PrepareDeparture)), s)
    ensures var w' := Next(c, w, Request(s, endpoint, Leave(true)));
            IsDeparting(w', s) <==> w.players[s].departingProfile
  {
    AskedActs(c, w, s, endpoint, PublishProfile(departing));
    AskedActs(c, w, s, endpoint, PrepareDeparture);
    AskedActs(c, w, s, endpoint, Leave(true));
  }
}
