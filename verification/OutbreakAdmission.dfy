/**
  Who gets in and who hears what in the Outbreak lobby, said of the rooms', the
  sessions' and the players' own fields: which requests are granted, how the
  others are refused, who receives a relayed message, what a room row shows.
 */
module OutbreakAdmission {
  import opened Snap
  import opened Sessions
  import opened Login
  import opened Rooms
  import opened RoomList
  import opened Outbreak
  import opened OutbreakRooms
  import opened OutbreakList

  function Asked(s: int, endpoint: Endpoint, command: Command): Op {
    Request(s, endpoint, command)
  }

  lemma AskedActs(c: Config, w: World, s: int, endpoint: Endpoint, command: Command, p: int)
    requires s in w.reg.byId
    ensures Next(c, w, Asked(s, endpoint, command)) == Handled(c, w, s, command)
    ensures Sent(c, w, Asked(s, endpoint, command), p) == RequestEvents(c, w, s, command, p)
  {
  }

  // Joining a room.

  /** A room is stored, its started-or-disbanded bit is clear, and its password is empty or the one given. */
  predicate LetsTry(w: World, r: int, password: string) {
    && r in w.rooms.rooms
    && w.rooms.rooms[r].rules / 0x40000000 % 2 == 0
    && (w.rooms.rooms[r].password == "" || w.rooms.rooms[r].password == password)
  }

  /** The refusals and successes among what a request's sender is sent. */
  predicate Answers(e: Event) { e.Result? || e.Refusal? }

  lemma JoinRoomAdmitsIff(c: Config, w: World, s: int, endpoint: Endpoint, r: int, password: string)
    requires Good(w) && s in w.reg.byId && w.reg.byId[s].roomId != r
    ensures var w' := Next(c, w, Asked(s, endpoint, JoinRoom(r, password)));
            && s in w'.reg.byId
            && (w'.reg.byId[s].roomId == r <==>
                  LetsTry(w, r, password) && |w.rooms.rooms[r].members| < w.rooms.rooms[r].maxPlayers)
            && (!LetsTry(w, r, password) ==> w' == w)
            && (LetsTry(w, r, password) && |w.rooms.rooms[r].members| >= w.rooms.rooms[r].maxPlayers ==>
                  w'.reg.byId[s].roomId == 0)
            && (w'.reg.byId[s].roomId == r ==>
                  r in w'.rooms.rooms && w'.rooms.rooms[r].members == w.rooms.rooms[r].members + {s})
  {
    if LetsTry(w, r, password) {
      TargetRoomStays(w, s, r);
      assert r > 0;
    }
  }

  /** Leaving its own room does not change the room a player wants to join. */
  lemma TargetRoomStays(w: World, s: int, r: int)
    requires Good(w) && s in w.reg.byId && w.reg.byId[s].roomId != r && r in w.rooms.rooms
    ensures r in LeftRoom(w, s).rooms.rooms && LeftRoom(w, s).rooms.rooms[r] == w.rooms.rooms[r]
    ensures s !in w.rooms.rooms[r].members
  {
    if s in w.rooms.rooms[r].members { assert Holds(w, r, s); }
  }

  /** How a join is answered: already there, no such room or closed, wrong password, full, joined. */
  lemma JoinRoomAnswer(c: Config, w: World, s: int, endpoint: Endpoint, r: int, password: string, e: Event)
    requires Good(w) && s in w.reg.byId && Answers(e)
    ensures e in Sent(c, w, Asked(s, endpoint, JoinRoom(r, password)), s)
       <==> e == if r in w.rooms.rooms && w.reg.byId[s].roomId == r then Result(0)
                 else if r !in w.rooms.rooms || w.rooms.rooms[r].rules / 0x40000000 % 2 == 1 then Refusal(1)
                 else if w.rooms.rooms[r].password != "" && w.rooms.rooms[r].password != password then Refusal(15)
                 else if |w.rooms.rooms[r].members| >= w.rooms.rooms[r].maxPlayers then Refusal(1)
                 else Result(0)
  {
    var command := JoinRoom(r, password);
    AnswerAmong(c, w, s, endpoint, command, e);
    if r in w.rooms.rooms && w.reg.byId[s].roomId != r { TargetRoomStays(w, s, r); }
  }

  /** What answers a request is among its own answer. */
  lemma AnswerAmong(c: Config, w: World, s: int, endpoint: Endpoint, command: Command, e: Event)
    requires s in w.reg.byId && Answers(e)
    ensures e in Sent(c, w, Asked(s, endpoint, command), s) <==> e in Answer(c, w, s, command)
  {
    AskedActs(c, w, s, endpoint, command, s);
    var own, events := OwnEvents(c, w, s, command, s), RequestEvents(c, w, s, command, s);
    assert e in events <==> e in own;
    assert e in own <==> e in Answer(c, w, s, command);
  }

  /** A wrong password is answered as such, and the player stays where it was. */
  lemma WrongPasswordIff(c: Config, w: World, s: int, endpoint: Endpoint, r: int, password: string)
    requires Good(w) && s in w.reg.byId && w.reg.byId[s].roomId != r
    ensures var op := Asked(s, endpoint, JoinRoom(r, password));
            && (Refusal(15) in Sent(c, w, op, s) <==>
                  && r in w.rooms.rooms && w.rooms.rooms[r].rules / 0x40000000 % 2 == 0
                  && w.rooms.rooms[r].password != "" && w.rooms.rooms[r].password != password)
            && (Refusal(15) in Sent(c, w, op, s) ==> Next(c, w, op) == w)
  {
    JoinRoomAnswer(c, w, s, endpoint, r, password, Refusal(15));
    JoinRoomAdmitsIff(c, w, s, endpoint, r, password);
  }

  // Creating a room.

  /** The player is in an Area of the directory that has room for another room. */
  predicate HasSpaceForARoom(c: Config, w: World, s: int)
    requires s in w.reg.byId
  {
    && w.reg.byId[s].lobbyId in c.areas
    && |set r | r in w.rooms.rooms && w.rooms.rooms[r].lobbyId == w.reg.byId[s].lobbyId| < c.perLobby
  }

  /**
    A granted create puts the player alone into a new room of its Area with what
    it asked for, between one and four players and no more than configured; a
    refused one changes nothing.
   */
  lemma CreateRoomIff(
    c: Config, w: World, s: int, endpoint: Endpoint, name: string, password: string, rules: nat, wanted: nat, e: Event)
    requires Good(w) && s in w.reg.byId && c.perRoom >= 1 && Answers(e)
    ensures var op := Asked(s, endpoint, CreateRoom(name, password, rules, wanted)); var w' := Next(c, w, op);
            if HasSpaceForARoom(c, w, s) then
              var r := w.rooms.nextId;
              && r !in w.rooms.rooms && r in w'.rooms.rooms && w'.reg.byId[s].roomId == r
              && var room := w'.rooms.rooms[r];
                 && room.name == name && room.password == password && room.rules == rules
                 && room.lobbyId == w.reg.byId[s].lobbyId && room.host == s && room.members == {s}
                 && 1 <= room.maxPlayers <= 4 && room.maxPlayers <= c.perRoom
                 && (1 <= wanted <= 4 && wanted <= c.perRoom ==> room.maxPlayers == wanted)
                 && (wanted > 4 && c.perRoom >= 4 ==> room.maxPlayers == 4)
                 && (e in Sent(c, w, op, s) <==> e == Result(r))
            else w' == w && (e in Sent(c, w, op, s) <==> e == Refusal(1))
  {
    AnswerAmong(c, w, s, endpoint, CreateRoom(name, password, rules, wanted), e);
    assert LobbyRooms(w.rooms, w.reg.byId[s].lobbyId)
        == set r | r in w.rooms.rooms && w.rooms.rooms[r].lobbyId == w.reg.byId[s].lobbyId;
  }

  // Joining an Area.

  /** The Area exists, and fewer others than the capacity are counted, on the server in File#2, else in the Area. */
  predicate HasSpaceInArea(c: Config, w: World, s: int, area: int) {
    && area in c.areas
    && |set p | p in w.reg.byId && p != s
                && (if c.fileTwo then w.reg.byId[p].lobbyId in c.areas else w.reg.byId[p].lobbyId == area)| < c.capacity
  }

  lemma JoinAreaIff(c: Config, w: World, s: int, endpoint: Endpoint, area: int, e: Event)
    requires Good(w) && s in w.reg.byId && Answers(e)
    ensures var op := Asked(s, endpoint, JoinArea(area)); var w' := Next(c, w, op);
            if HasSpaceInArea(c, w, s, area) then
              && w'.reg.byId[s].lobbyId == area && w'.reg.byId[s].roomId == 0
              && (e in Sent(c, w, op, s) <==> e == Result(0))
            else w' == w && (e in Sent(c, w, op, s) <==> e == Refusal(1))
  {
    AnswerAmong(c, w, s, endpoint, JoinArea(area), e);
    var others := set p | p in w.reg.byId && p != s
                    && (if c.fileTwo then w.reg.byId[p].lobbyId in c.areas else w.reg.byId[p].lobbyId == area);
    assert (if c.fileTwo then AllInAreas(c, w.reg) else LobbyMembers(w.reg, area)) - {s} == others;
    if HasSpaceInArea(c, w, s, area) { assert Holds(w, w.reg.byId[s].roomId, s) || w.reg.byId[s].roomId == 0; }
  }

  // What the list shows.

  /** The rooms of one lobby below `n` whose started-or-disbanded bit is clear. */
  function OpenBelow(t: Table, lobby: int, n: int): set<int> {
    set r | r in t.rooms && 0 <= r < n && t.rooms[r].lobbyId == lobby && t.rooms[r].rules / 0x40000000 % 2 == 0
  }

  lemma {:induction false} CountOpen(t: Table, lobby: int, n: nat)
    ensures |OpenRooms(t, lobby, n)| == |OpenBelow(t, lobby, n)|
  {
    if n == 0 {
      assert OpenBelow(t, lobby, 0) == {};
    } else {
      CountOpen(t, lobby, n - 1);
      var here := if n - 1 in t.rooms && t.rooms[n - 1].lobbyId == lobby && Open(t.rooms[n - 1]) then {n - 1} else {};
      assert OpenBelow(t, lobby, n) == OpenBelow(t, lobby, n - 1) + here;
    }
  }

  /**
    A room is listed exactly when it is in an Area, its started-or-disbanded bit is
    clear, and fewer than the limit such rooms of its Area are older.  Its row
    counts the players who are in it, which are never none and never more than the
    limit shown beside them.
   */
  lemma ListedRowShows(c: Config, w: World, r: int)
    requires Good(w)
    ensures r in ListedRooms(c, w.rooms) <==>
            && r in w.rooms.rooms && w.rooms.rooms[r].lobbyId in c.areas
            && w.rooms.rooms[r].rules / 0x40000000 % 2 == 0
            && |OpenBelow(w.rooms, w.rooms.rooms[r].lobbyId, r)| < c.listed
    ensures r in ListedRooms(c, w.rooms) ==>
              var listed, room := ListedRooms(c, w.rooms)[r], w.rooms.rooms[r];
              && listed.area == room.lobbyId
              && listed.row.roomId == r && listed.row.name == room.name && listed.row.rules == room.rules
              && listed.row.users == |set p | p in w.reg.byId && w.reg.byId[p].roomId == r|
              && listed.row.maxPlayers == room.maxPlayers
              && 1 <= listed.row.users <= listed.row.maxPlayers <= 4
  {
    ListedIff(c, w.rooms, r);
    if r in w.rooms.rooms {
      assert 0 < r;
      CountOpen(w.rooms, w.rooms.rooms[r].lobbyId, r);
      IndexIsExact(w, 0, r);
      assert RoomMembers(w.reg, r) == set p | p in w.reg.byId && w.reg.byId[p].roomId == r;
    }
  }

  // Who hears what.

  /** What one player's request makes others hear. */
  predicate Relay(e: Event) {
    e.Chat? || e.Packet? || e.Target? || e.Property? || e.Joined? || e.AreaJoined?
  }

  lemma {:induction false} OwedAreLeft(pending: seq<int>, s: int, e: Event)
    requires e in LeaveCallbacks(pending, s)
    ensures e.Left?
  {
    if pending != [] && e in LeaveCallbacks(pending[1..], s) { OwedAreLeft(pending[1..], s, e); }
  }

  lemma RelayAmong(c: Config, w: World, s: int, endpoint: Endpoint, command: Command, p: int, e: Event)
    requires s in w.reg.byId && Relay(e)
    ensures e in Sent(c, w, Asked(s, endpoint, command), p)
       <==> e in Relayed(c, w, Handled(c, w, s, command), s, command, p)
  {
    AskedActs(c, w, s, endpoint, command, p);
    var own, events := OwnEvents(c, w, s, command, p), RequestEvents(c, w, s, command, p);
    assert e in events <==> e in own;
    if e in Answer(c, w, s, command) && command.ChangeStatus? && s in w.players {
      OwedAreLeft(w.players[s].pendingLeaves, s, e);
    }
    assert e in own <==> e in Relayed(c, w, Handled(c, w, s, command), s, command, p);
  }

  /** In the lobby, as the server knows it: known, and not in a scenario. */
  predicate InTheLobby(w: World, p: int) {
    p in w.reg.byId && p in w.players && !w.players[p].inScenario
  }

  predicate Roommates(w: World, s: int, p: int) {
    && s in w.reg.byId && p in w.reg.byId && p != s
    && w.reg.byId[s].roomId > 0 && w.reg.byId[p].roomId == w.reg.byId[s].roomId
  }

  predicate Neighbours(c: Config, w: World, s: int, p: int) {
    && s in w.reg.byId && p in w.reg.byId && p != s
    && w.reg.byId[s].lobbyId in c.areas && w.reg.byId[p].lobbyId == w.reg.byId[s].lobbyId
  }

  /**
    Area chat reaches the others of the Area who are in the lobby, in File#1 only
    those in no room; room chat reaches the roommates in the lobby.
   */
  lemma WhoHearsChat(c: Config, w: World, s: int, endpoint: Endpoint, text: Payload, acked: bool, p: int)
    requires s in w.reg.byId
    ensures Chat(s, text) in Sent(c, w, Asked(s, endpoint, AreaChat(text, acked)), p) <==>
            Neighbours(c, w, s, p) && InTheLobby(w, p) && (c.fileTwo || w.reg.byId[p].roomId <= 0)
    ensures Chat(s, text) in Sent(c, w, Asked(s, endpoint, RoomChat(text, acked)), p) <==>
            Roommates(w, s, p) && InTheLobby(w, p)
  {
    hide *;
    var area, room := AreaChat(text, acked), RoomChat(text, acked);
    RelayAmong(c, w, s, endpoint, area, p, Chat(s, text));
    RelayAmong(c, w, s, endpoint, room, p, Chat(s, text));
    ChatRelayed(c, w, Handled(c, w, s, area), s, text, acked, p);
    ChatRelayed(c, w, Handled(c, w, s, room), s, text, acked, p);
  }

  lemma ChatRelayed(c: Config, w: World, w': World, s: int, text: Payload, acked: bool, p: int)
    requires s in w.reg.byId
    ensures Chat(s, text) in Relayed(c, w, w', s, AreaChat(text, acked), p) <==>
            Neighbours(c, w, s, p) && InTheLobby(w, p) && (c.fileTwo || w.reg.byId[p].roomId <= 0)
    ensures Chat(s, text) in Relayed(c, w, w', s, RoomChat(text, acked), p) <==>
            Roommates(w, s, p) && InTheLobby(w, p)
  {
  }

  /** A new profile reaches the roommates in the lobby, a scenario packet every roommate. */
  lemma WhoHearsPlayers(c: Config, w: World, s: int, endpoint: Endpoint, data: Payload, acked: bool, p: int)
    requires Good(w) && s in w.reg.byId
    ensures Packet(s, data) in Sent(c, w, Asked(s, endpoint, ScenarioPacket(data, acked)), p) <==> Roommates(w, s, p)
    ensures Property(s, data) in Sent(c, w, Asked(s, endpoint, ChangeProperty(data)), p) <==>
            Roommates(w, s, p) && InTheLobby(w, p)
  {
    RelayAmong(c, w, s, endpoint, ScenarioPacket(data, acked), p, Packet(s, data));
    RelayAmong(c, w, s, endpoint, ChangeProperty(data), p, Property(s, data));
    ProfileStays(c, w, s, data, p);
    hide Sent, Handled, Asked, Sound, WellKept;
    var r := w.reg.byId[s].roomId;
    if r > 0 { assert Holds(w, r, s); }
  }

  lemma ProfileStays(c: Config, w: World, s: int, data: Payload, p: int)
    requires s in w.reg.byId
    ensures Reachable(Handled(c, w, s, ChangeProperty(data)), p) <==> Reachable(w, p)
  {
  }

  /** A targeted message reaches its target and nobody else, if that is in the lobby. */
  lemma TargetHears(
    c: Config, w: World, s: int, endpoint: Endpoint, target: Option<int>, data: Payload, acked: bool, p: int)
    requires s in w.reg.byId
    ensures Target(s, data) in Sent(c, w, Asked(s, endpoint, SendTarget(target, data, acked)), p) <==>
            target == Some(p) && InTheLobby(w, p)
  {
    RelayAmong(c, w, s, endpoint, SendTarget(target, data, acked), p, Target(s, data));
  }

  /** A player who gets into a room is announced to those already in it who are in the lobby, and to nobody else. */
  lemma JoinIsAnnounced(c: Config, w: World, s: int, endpoint: Endpoint, r: int, password: string, p: int)
    requires Good(w) && s in w.reg.byId && w.reg.byId[s].roomId != r
    ensures var op := Asked(s, endpoint, JoinRoom(r, password));
            Joined(s) in Sent(c, w, op, p) <==>
            && s in Next(c, w, op).reg.byId && Next(c, w, op).reg.byId[s].roomId == r
            && r in w.rooms.rooms && p in w.rooms.rooms[r].members && InTheLobby(w, p)
  {
    var command := JoinRoom(r, password);
    RelayAmong(c, w, s, endpoint, command, p, Joined(s));
    AskedActs(c, w, s, endpoint, command, p);
    JoinRoomAdmitsIff(c, w, s, endpoint, r, password);
    hide Sent, Next, Asked, RequestEvents;
    if r in w.rooms.rooms {
      TargetRoomStays(w, s, r);
      IndexIsExact(w, p, r);
      hide Sound, WellKept, Index;
      JoinRelayed(c, w, s, r, password, p);
    }
  }

  lemma JoinRelayed(c: Config, w: World, s: int, r: int, password: string, p: int)
    requires s in w.reg.byId && w.reg.byId[s].roomId != r && r > 0
    requires r in w.rooms.rooms && s !in w.rooms.rooms[r].members
    requires p in w.reg.byId && w.reg.byId[p].roomId == r <==> p in w.rooms.rooms[r].members
    requires r in LeftRoom(w, s).rooms.rooms && LeftRoom(w, s).rooms.rooms[r] == w.rooms.rooms[r]
    ensures var command := JoinRoom(r, password);
            Joined(s) in Relayed(c, w, Handled(c, w, s, command), s, command, p) <==>
            && LetsTry(w, r, password) && |w.rooms.rooms[r].members| < w.rooms.rooms[r].maxPlayers
            && p in w.rooms.rooms[r].members && InTheLobby(w, p)
  {
  }

  // What the other requests change.

  /** New rules reach the sender's own room and no other, and no room when it is in none. */
  lemma RulesChange(c: Config, w: World, s: int, endpoint: Endpoint, word: nat, r: int)
    requires Good(w) && s in w.reg.byId
    ensures var w' := Next(c, w, Asked(s, endpoint, ChangeRules(Some(word))));
            && w'.reg == w.reg && w'.players == w.players && (r in w'.rooms.rooms <==> r in w.rooms.rooms)
            && (r in w.rooms.rooms ==>
                  w'.rooms.rooms[r]
                  == if s in w.rooms.rooms[r].members then w.rooms.rooms[r].(rules := word) else w.rooms.rooms[r])
  {
    assert r in w.rooms.rooms && s in w.rooms.rooms[r].members ==> Holds(w, r, s);
    assert w.reg.byId[s].roomId > 0 ==> Holds(w, w.reg.byId[s].roomId, s);
  }

  /** A profile is stored whole or not at all, and the scenario status holds from one report to the next. */
  lemma PlayerChanges(c: Config, w: World, s: int, endpoint: Endpoint, profile: Payload, status: nat, p: int)
    requires s in w.reg.byId && s in w.players && p in w.players
    ensures var w' := Next(c, w, Asked(s, endpoint, ChangeProperty(profile)));
            && p in w'.players
            && w'.players[p]
               == if p == s && |profile| == 240 then w.players[p].(profile := profile) else w.players[p]
    ensures var w' := Next(c, w, Asked(s, endpoint, ChangeStatus(status)));
            && p in w'.players && w'.players[p].profile == w.players[p].profile
            && (w'.players[p].inScenario <==>
                  if p == s && status == 1 then true
                  else if p == s && status == c.lobbyStatus then false
                  else w.players[p].inScenario)
  {
    AskedActs(c, w, s, endpoint, ChangeProperty(profile), s);
    AskedActs(c, w, s, endpoint, ChangeStatus(status), s);
  }

  // Getting out.

  /** In no room, and no room lists it. */
  predicate InNoRoom(w: World, s: int) {
    && (s in w.reg.byId ==> w.reg.byId[s].roomId == 0)
    && forall r :: r in w.rooms.rooms ==> s !in w.rooms.rooms[r].members
  }

  lemma LeftIsInNoRoom(w: World, w': World, s: int)
    requires Good(w) && s in w.reg.byId && w'.rooms == LeftRoom(w, s).rooms
    requires s in w'.reg.byId ==> w'.reg.byId[s].roomId == LeftRoom(w, s).reg.byId[s].roomId
    ensures InNoRoom(w', s)
    ensures forall r :: r in w.rooms.rooms && s !in w.rooms.rooms[r].members ==>
              r in w'.rooms.rooms && w'.rooms.rooms[r] == w.rooms.rooms[r]
  {
    OutOfRoomKeepsGood(w, s);
    var left := LeftRoom(w, s);
    forall r | r in w'.rooms.rooms ensures s !in w'.rooms.rooms[r].members {
      assert !Holds(left, r, s);
    }
    var own := w.reg.byId[s].roomId;
    if own > 0 { assert Holds(w, own, s); }
  }

  /**
    Logging out and leaving always succeed: the player is in no room, and when it
    logs out or leaves the Area in no Area either; the other rooms stay as they
    were.
   */
  lemma GettingOut(c: Config, w: World, s: int, endpoint: Endpoint, leaveArea: bool)
    requires Good(w) && s in w.reg.byId
    ensures var w' := Next(c, w, Asked(s, endpoint, Leave(leaveArea)));
            && s in w'.reg.byId && InNoRoom(w', s) && w'.players.Keys == w.players.Keys
            && (if leaveArea then w'.reg.byId[s].lobbyId == 0 || w'.reg.byId[s].lobbyId !in c.areas
                else w'.reg.byId[s].lobbyId == w.reg.byId[s].lobbyId)
    ensures var w' := Next(c, w, Asked(s, endpoint, Logout));
            && s in w'.reg.byId && InNoRoom(w', s) && w'.players.Keys == w.players.Keys - {s}
            && (w'.reg.byId[s].lobbyId == 0 || w'.reg.byId[s].lobbyId !in c.areas)
    ensures var w' := Next(c, w, Timeout(s, endpoint));
            && w'.reg.byId.Keys == w.reg.byId.Keys - {s} && InNoRoom(w', s)
            && w'.players.Keys == w.players.Keys - {s}
  {
    OutOfRoomKeepsGood(w, s);
    AskedActs(c, w, s, endpoint, Leave(leaveArea), s);
    AskedActs(c, w, s, endpoint, Logout, s);
    hide InNoRoom, LeftRoom, Good;
    LeftIsInNoRoom(w, Next(c, w, Asked(s, endpoint, Leave(leaveArea))), s);
    LeftIsInNoRoom(w, Next(c, w, Asked(s, endpoint, Logout)), s);
    LeftIsInNoRoom(w, Next(c, w, Timeout(s, endpoint)), s);
    LeavingKeepsPlayers(w, s);
  }

  lemma LeavingKeepsPlayers(w: World, s: int)
    requires s in w.reg.byId
    ensures LeftRoom(w, s).players.Keys == w.players.Keys && s in LeftRoom(w, s).reg.byId
    ensures LeftRoom(w, s).reg.byId.Keys == w.reg.byId.Keys
    ensures LeftRoom(w, s).reg.byId[s].lobbyId == w.reg.byId[s].lobbyId
  {
  }

  /** What is known of `p` stays, but for the departures it is owed. */
  predicate StaysPut(w: World, w': World, p: int) {
    && (p in w'.reg.byId <==> p in w.reg.byId)
    && (p in w.reg.byId ==> w'.reg.byId[p] == w.reg.byId[p])
    && (p in w'.players <==> p in w.players)
    && (p in w.players ==>
          w'.players[p].profile == w.players[p].profile && w'.players[p].inScenario == w.players[p].inScenario)
  }

  lemma LeavingMovesOne(w: World, s: int, p: int)
    requires s in w.reg.byId && p != s
    ensures s in LeftRoom(w, s).reg.byId && StaysPut(w, LeftRoom(w, s), p)
  {
  }

  lemma DepartingMovesOne(c: Config, w: World, s: int, command: Command, p: int)
    requires s in w.reg.byId && p != s
    ensures StaysPut(w, AfterDeparture(c, w, s, command), p)
  {
  }

  lemma StayingMovesOne(c: Config, w: World, s: int, command: Command, p: int)
    requires s in w.reg.byId && p != s
    ensures StaysPut(w, Staying(c, w, s, command), p)
  {
  }

  /** A request moves nobody but its sender. */
  lemma OnlyTheSenderMoves(c: Config, w: World, s: int, endpoint: Endpoint, command: Command, p: int)
    requires s in w.reg.byId && p != s
    ensures StaysPut(w, Next(c, w, Asked(s, endpoint, command)), p)
  {
    AskedActs(c, w, s, endpoint, command, p);
    LeavingMovesOne(w, s, p);
    hide LeftRoom, AfterDeparture, Staying, Next, Departs;
    DepartingMovesOne(c, LeftRoom(w, s), s, command, p);
    StayingMovesOne(c, w, s, command, p);
  }
}
