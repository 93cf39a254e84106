/** The plugin object itself: its handlers change the registries and its player table in place. */
module OutbreakPlugin {
  import opened Snap
  import opened Sessions
  import opened Login
  import opened Rooms
  import opened RoomList
  import opened Outbreak

  /** What one handler returns, by recipient. */
  type Outbox = map<int, seq<Event>>

  function Inbox(out: Outbox, p: int): seq<Event> {
    if p in out then out[p] else []
  }

  function Told(out: Outbox, who: set<int>, e: Event): Outbox {
    map p | p in out.Keys + who :: Inbox(out, p) + if p in who then [e] else []
  }

  function Both(a: Outbox, b: Outbox): Outbox {
    map p | p in a.Keys + b.Keys :: Inbox(a, p) + Inbox(b, p)
  }

  lemma InboxOfBoth(a: Outbox, b: Outbox, p: int)
    ensures Inbox(Both(a, b), p) == Inbox(a, p) + Inbox(b, p)
  {
  }

  lemma NobodyDeferred(players: map<int, Player>, s: int)
    ensures Deferred(players, {}, s) == players
  {
  }

  lemma DeferOne(players: map<int, Player>, who: set<int>, p: int, s: int)
    requires p !in who
    ensures var d := Deferred(players, who, s);
            Deferred(players, who + {p}, s)
            == if p in players && players[p].inScenario
               then d[p := d[p].(pendingLeaves := d[p].pendingLeaves + [s])] else d
  {
  }

  /** The recipients of an Area callback. */
  function AreaPeers(w: World, area: int, s: int): set<int> {
    set p | p in LobbyMembers(w.reg, area) && p != s && Reachable(w, p)
  }

  /** The recipients of a room callback. */
  function LobbyPeers(w: World, room: int, s: int): set<int> {
    set p | p in RoomMembers(w.reg, room) && p != s && Reachable(w, p)
  }

  lemma MovingAreas(c: Config, w: World, s: int, area: int)
    requires s in w.reg.byId && MayJoinArea(c, w, s, area)
    ensures var w1 := LeftRoom(w, s);
            Handled(c, w, s, JoinArea(area)) == w1.(reg := WithLobby(OutOfArea(c, w1.reg, s), s, area))
  {
    var w1 := LeftRoom(w, s);
    assert WithLobby(OutOfArea(c, w1.reg, s), s, area) == WithLobby(w1.reg, s, area);
  }

  function ArrivalEvents(c: Config, w: World, s: int, area: int, p: int): seq<Event> {
    (if p == s then [Result(0)] else []) + if c.fileTwo && p in AreaPeers(w, area, s) then [AreaJoined(s)] else []
  }

  lemma JoinAreaEvents(c: Config, w: World, s: int, area: int, p: int)
    requires s in w.reg.byId && MayJoinArea(c, w, s, area)
    ensures OwnEvents(c, w, s, JoinArea(area), p)
         == LeaveEvents(w, s, p) + AreaLeaveEvents(c, w, s, p)
            + ArrivalEvents(c, Handled(c, w, s, JoinArea(area)), s, area, p)
  {
  }

  class OutbreakPlugin {
    const config: Config
    const sessions: SessionRegistry
    const rooms: RoomRegistry
    var players: map<int, Player>

    constructor (config: Config)
      ensures State() == START && this.config == config && fresh(sessions) && fresh(rooms)
    {
      this.config := config;
      sessions := new SessionRegistry();
      rooms := new RoomRegistry();
      players := map[];
    }

    function State(): World
      reads this, sessions, rooms
    {
      World(sessions.State(), rooms.State(), players)
    }

    /** Take the player out of its room; tell the companions in the lobby and note the departure for the others. */
    method LeaveRoom(s: int, notify: bool) returns (out: Outbox)
      requires s in sessions.byId
      modifies this, sessions, rooms
      ensures State() == if notify then LeftRoom(old(State()), s) else OutOfRoom(old(State()), s)
      ensures forall p :: Inbox(out, p) == if notify then LeaveEvents(old(State()), s, p) else []
    {
      out := map[];
      ghost var w := State();
      var room := sessions.byId[s].roomId;
      var found := room > 0 && room in rooms.rooms;
      NobodyDeferred(players, s);
      if room > 0 {
        sessions.SetRoom(s, 0);
      }
      if !found {
        return;
      }
      rooms.Leave(room, s);
      if !notify {
        return;
      }
      var members := RoomMembers(sessions.State(), room);
      var recipients: set<int>, rest: set<int> := {}, members;
      while rest != {}
        invariant rest <= members && recipients == (set p | p in members - rest && Reachable(w, p))
        invariant players == Deferred(w.players, members - rest, s)
        invariant sessions.State() == OutOfRoom(w, s).reg && rooms.State() == OutOfRoom(w, s).rooms
      {
        var p := Pick(rest);
        DeferOne(w.players, members - rest, p, s);
        assert members - (rest - {p}) == members - rest + {p};
        if p in players && !players[p].inScenario {
          recipients := recipients + {p};
        } else if p in players {
          players := players[p := players[p].(pendingLeaves := players[p].pendingLeaves + [s])];
        }
        rest := rest - {p};
      }
      assert members - rest == members == Companions(w, s);
      out := Told(map[], recipients, Left(s));
    }

    /** File#2's `_leave_area`: the Area peers in the lobby count the player out. File#1 just clears the Area. */
    method LeaveArea(s: int) returns (out: Outbox)
      requires s in sessions.byId
      modifies sessions
      ensures sessions.State() == OutOfArea(config, old(sessions.State()), s)
      ensures forall p :: Inbox(out, p) == AreaLeaveEvents(config, old(State()), s, p)
    {
      out := map[];
      var area := sessions.byId[s].lobbyId;
      if config.fileTwo && area !in config.areas {
        return;
      }
      if config.fileTwo {
        out := Told(out, AreaPeers(State(), area, s), AreaLeft(s));
      }
      sessions.SetLobby(s, 0);
    }

    method LeaveRoomAndArea(s: int) returns (out: Outbox)
      requires s in sessions.byId
      modifies this, sessions, rooms
      ensures var w := LeftRoom(old(State()), s); State() == w.(reg := OutOfArea(config, w.reg, s))
      ensures forall p :: Inbox(out, p) == LeaveEvents(old(State()), s, p) + AreaLeaveEvents(config, old(State()), s, p)
    {
      ghost var w := State();
      var departures := LeaveRoom(s, true);
      assert forall p :: AreaLeaveEvents(config, LeftRoom(w, s), s, p) == AreaLeaveEvents(config, w, s, p);
      var area := LeaveArea(s);
      out := Both(departures, area);
    }

    method HandleLogout(s: int) returns (out: Outbox)
      requires s in sessions.byId
      modifies this, sessions, rooms
      ensures State() == Handled(config, old(State()), s, Logout)
      ensures forall p :: Inbox(out, p) == OwnEvents(config, old(State()), s, Logout, p)
    {
      out := LeaveRoomAndArea(s);
      players := players - {s};
    }

    method HandleCreateGameRoom(s: int, name: string, password: string, rules: nat, wanted: nat) returns (out: Outbox)
      requires s in sessions.byId
      modifies this, sessions, rooms
      ensures State() == Handled(config, old(State()), s, CreateRoom(name, password, rules, wanted))
      ensures forall p :: Inbox(out, p) ==
                OwnEvents(config, old(State()), s, CreateRoom(name, password, rules, wanted), p)
    {
      var area := sessions.byId[s].lobbyId;
      if area !in config.areas || |LobbyRooms(rooms.State(), area)| >= config.perLobby {
        out := Told(map[], {s}, Refusal(1));
      } else {
        var departures := LeaveRoom(s, true);
        var room := rooms.CreateRoom(name, password, rules, Limit(config, wanted), area, s);
        sessions.SetRoom(s, room);
        out := Told(departures, {s}, Result(room));
      }
    }

    /** The answer, and in File#2 the arrival, which the Area peers in the lobby count. */
    method EnterArea(s: int, area: int) returns (out: Outbox)
      requires s in sessions.byId
      modifies sessions
      ensures sessions.State() == WithLobby(old(sessions.State()), s, area)
      ensures forall p :: Inbox(out, p) == ArrivalEvents(config, State(), s, area, p)
    {
      sessions.SetLobby(s, area);
      out := Told(map[], {s}, Result(0));
      if config.fileTwo {
        out := Told(out, AreaPeers(State(), area, s), AreaJoined(s));
      }
    }

    method HandleJoinArea(s: int, area: int) returns (out: Outbox)
      requires s in sessions.byId
      modifies this, sessions, rooms
      ensures State() == Handled(config, old(State()), s, JoinArea(area))
      ensures forall p :: Inbox(out, p) == OwnEvents(config, old(State()), s, JoinArea(area), p)
    {
      if !MayJoinArea(config, State(), s, area) {
        return Told(map[], {s}, Refusal(1));
      }
      ghost var w := State();
      var departures := LeaveRoomAndArea(s);
      var arrival := EnterArea(s, area);
      MovingAreas(config, w, s, area);
      out := Both(departures, arrival);
      forall p ensures Inbox(out, p) == OwnEvents(config, w, s, JoinArea(area), p) {
        JoinAreaEvents(config, w, s, area, p);
        InboxOfBoth(departures, arrival, p);
      }
    }

    method HandleJoinRoom(s: int, roomId: int, password: string) returns (out: Outbox)
      requires s in sessions.byId
      modifies this, sessions, rooms
      ensures State() == Handled(config, old(State()), s, JoinRoom(roomId, password))
      ensures forall p :: Inbox(out, p) == OwnEvents(config, old(State()), s, JoinRoom(roomId, password), p)
    {
      if roomId in rooms.rooms && sessions.byId[s].roomId == roomId {
        out := Told(map[], {s}, Result(0));
      } else if roomId !in rooms.rooms || !Open(rooms.rooms[roomId]) {
        out := Told(map[], {s}, Refusal(1));
      } else if !HasPassword(rooms.rooms[roomId], password) {
        out := Told(map[], {s}, Refusal(15));
      } else {
        out := LeaveRoom(s, true);
        var joined := rooms.Join(roomId, s);
        if !joined {
          out := Told(out, {s}, Refusal(1));
        } else {
          sessions.SetRoom(s, roomId);
          out := Told(out, {s}, Result(0));
          out := Told(out, LobbyPeers(State(), roomId, s), Joined(s));
        }
      }
    }

    method HandleLeave(s: int, leaveArea: bool) returns (out: Outbox)
      requires s in sessions.byId
      modifies this, sessions, rooms
      ensures State() == Handled(config, old(State()), s, Leave(leaveArea))
      ensures forall p :: Inbox(out, p) == OwnEvents(config, old(State()), s, Leave(leaveArea), p)
    {
      if leaveArea {
        out := LeaveRoomAndArea(s);
      } else {
        out := LeaveRoom(s, true);
      }
      out := Told(out, {s}, Result(0));
    }

    method HandleChangeAttribute(s: int, word: Option<nat>) returns (out: Outbox)
      requires s in sessions.byId
      modifies rooms
      ensures State() == Handled(config, old(State()), s, ChangeRules(word))
      ensures forall p :: Inbox(out, p) == OwnEvents(config, old(State()), s, ChangeRules(word), p)
    {
      if sessions.byId[s].roomId in rooms.rooms && word.Some? {
        rooms.SetRules(sessions.byId[s].roomId, word.value);
      }
      out := Told(map[], {s}, Result(0));
    }

    method HandleChangeUserProperty(s: int, profile: Payload) returns (out: Outbox)
      requires s in sessions.byId
      modifies this
      ensures State() == Handled(config, old(State()), s, ChangeProperty(profile))
      ensures forall p :: Inbox(out, p) == OwnEvents(config, old(State()), s, ChangeProperty(profile), p)
    {
      if s in players && |profile| == PROFILE_SIZE {
        players := players[s := players[s].(profile := profile)];
      }
      out := Told(map[], {s}, Result(0));
      var room := sessions.byId[s].roomId;
      if room in rooms.rooms {
        out := Told(out, LobbyPeers(State(), room, s), Property(s, profile));
      }
    }

    method BuildRoomLeaveCallbacks(pending: seq<int>, s: int) returns (messages: seq<Event>)
      ensures messages == LeaveCallbacks(pending, s)
    {
      messages := [];
      for i := 0 to |pending|
        invariant LeaveCallbacks(pending, s) == messages + LeaveCallbacks(pending[i..], s)
      {
        assert pending[i..][1..] == pending[i + 1..];
        if pending[i] != s {
          messages := messages + [Left(pending[i])];
        }
      }
    }

    method HandleChangeUserStatus(s: int, status: nat) returns (out: Outbox)
      requires s in sessions.byId
      modifies this
      ensures State() == Handled(config, old(State()), s, ChangeStatus(status))
      ensures forall p :: Inbox(out, p) == OwnEvents(config, old(State()), s, ChangeStatus(status), p)
    {
      var deferred: seq<Event> := [];
      if s in players && (status == STATUS_IN_SCENARIO || status == config.lobbyStatus) {
        players := players[s := players[s].(inScenario := status == STATUS_IN_SCENARIO)];
        if !players[s].inScenario {
          deferred := BuildRoomLeaveCallbacks(players[s].pendingLeaves, s);
          players := players[s := players[s].(pendingLeaves := [])];
        }
      }
      out := map[s := [Result(0)] + deferred];
    }

    method HandleSend(s: int, command: Command) returns (out: Outbox)
      requires s in sessions.byId
      requires command.AreaChat? || command.RoomChat? || command.ScenarioPacket?
      ensures State() == Handled(config, old(State()), s, command)
      ensures forall p :: Inbox(out, p) == OwnEvents(config, old(State()), s, command, p)
    {
      var w := State();
      out := if command.acked then map[s := [Ack]] else map[];
      if command.AreaChat? {
        var area := sessions.byId[s].lobbyId;
        var recipients := set p | p in LobbyMembers(w.reg, area) && area in config.areas && p != s
                                  && (config.fileTwo || w.reg.byId[p].roomId <= 0) && Reachable(w, p);
        out := Told(out, recipients, Chat(s, command.text));
      } else if command.RoomChat? {
        var recipients := set p | p in Peers(w, s) && Reachable(w, p);
        out := Told(out, recipients, Chat(s, command.text));
      } else {
        out := Told(out, Peers(w, s), Packet(s, command.data));
      }
    }

    method HandleSendTarget(s: int, target: Option<int>, data: Payload, acked: bool) returns (out: Outbox)
      requires s in sessions.byId
      ensures State() == Handled(config, old(State()), s, SendTarget(target, data, acked))
      ensures forall p :: Inbox(out, p) == OwnEvents(config, old(State()), s, SendTarget(target, data, acked), p)
    {
      out := if acked then map[s := [Ack]] else map[];
      if target.Some? && target.value in sessions.byId && Reachable(State(), target.value) {
        out := Told(out, {target.value}, Target(s, data));
      }
    }

    method RoomListUpdates(before: Directory<RoomRow>) returns (out: Outbox)
      ensures forall p, t :: ListedRooms(config, t) == before ==> Inbox(out, p) == ListUpdates(config, t, State(), p)
    {
      var w := State();
      if w.rooms.nextId < 0 {
        return map[];
      }
      var after := ListedRooms(config, w.rooms);
      out := map p | p in w.reg.byId && w.reg.byId[p].lobbyId in config.areas && Reachable(w, p) ::
        RoomEvents(Updates(before, after, w.reg.byId[p].lobbyId, w.rooms.nextId));
    }

    /** One request: its handler, wrapped with the list updates it causes when it may change a room. */
    method HandleRequest(s: int, command: Command) returns (out: Outbox)
      requires s in sessions.byId
      modifies this, sessions, rooms
      ensures State() == Handled(config, old(State()), s, command)
      ensures forall p :: Inbox(out, p) == RequestEvents(config, old(State()), s, command, p)
    {
      var before := ListedRooms(config, rooms.State());
      match command {
        case Logout => out := HandleLogout(s);
        case CreateRoom(name, password, rules, wanted) => out := HandleCreateGameRoom(s, name, password, rules, wanted);
        case JoinArea(area) => out := HandleJoinArea(s, area);
        case JoinRoom(roomId, password) => out := HandleJoinRoom(s, roomId, password);
        case Leave(leaveArea) => out := HandleLeave(s, leaveArea);
        case ChangeRules(word) => out := HandleChangeAttribute(s, word);
        case ChangeProperty(profile) => out := HandleChangeUserProperty(s, profile);
        case ChangeStatus(status) => out := HandleChangeUserStatus(s, status);
        case SendTarget(target, data, acked) => out := HandleSendTarget(s, target, data, acked);
        case _ => out := HandleSend(s, command);
      }
      if Tracked(command) {
        var updates := RoomListUpdates(before);
        out := Both(out, updates);
      }
    }

    method TakeOut(s: int) returns (out: Outbox)
      requires s in sessions.byId
      modifies this, sessions, rooms
      ensures State() == Forgotten(config, old(State()), s)
      ensures forall p :: Inbox(out, p) == LeaveEvents(old(State()), s, p) + AreaLeaveEvents(config, old(State()), s, p)
    {
      if config.fileTwo {
        out := LeaveRoomAndArea(s);
      } else {
        out := LeaveRoom(s, true);
      }
      players := players - {s};
    }

    method OnSessionTimeout(s: int) returns (out: Outbox)
      requires s in sessions.byId
      modifies this, sessions, rooms
      ensures State() == Forgotten(config, old(State()), s)
      ensures forall p :: Inbox(out, p) == EndEvents(config, old(State()), s, p)
    {
      hide ListedRooms, ListUpdates, Forgotten, LeaveEvents, AreaLeaveEvents, Both, Inbox;
      ghost var w := State();
      var before := ListedRooms(config, rooms.State());
      out := TakeOut(s);
      var updates := RoomListUpdates(before);
      forall p ensures Inbox(Both(out, updates), p) == EndEvents(config, w, s, p) {
        InboxOfBoth(out, updates, p);
      }
      out := Both(out, updates);
    }

    /** `_end_session` of the engine. */
    method EndSession(s: int) returns (out: Outbox)
      requires s in sessions.byId
      modifies this, sessions, rooms
      ensures State() == Ended(config, old(State()), s)
      ensures forall p :: Inbox(out, p) == EndEvents(config, old(State()), s, p)
    {
      out := OnSessionTimeout(s);
      sessions.Remove(s);
    }

    method HandleLoginToKics(h: Handoff, accepted: bool, endpoint: Endpoint, profile: Payload) returns (out: Outbox)
      modifies this, sessions, rooms
      ensures State() == LoggedIn(config, old(State()), h, accepted, endpoint, profile)
      ensures forall p :: Inbox(out, p) == LoginEvents(config, old(State()), h, accepted, endpoint, profile, p)
    {
      var before := ListedRooms(config, rooms.State());
      if h.sessionId in sessions.byId {
        var silent := LeaveRoom(h.sessionId, false);
      }
      out := map[];
      if accepted {
        out := SharedLogin(h, endpoint);
        players := players[h.sessionId := NewPlayer(profile)];
      }
      var updates := RoomListUpdates(before);
      out := Both(out, updates);
    }

    /** The game-independent part (opensnap/core/game/handlers.py); its own silent reset finds no room to leave here. */
    method SharedLogin(h: Handoff, endpoint: Endpoint) returns (out: Outbox)
      modifies this, sessions, rooms
      ensures var w := StaleEnded(config, old(State()), h, endpoint);
              State() == w.(reg := SeatedRegistry(w.reg, h, endpoint))
      ensures forall p :: Inbox(out, p) == LoginAnswer(config, old(State()), h, endpoint, p)
    {
      out := EndStale(h, endpoint);
      Seat(sessions, h, endpoint);
    }

    method EndStale(h: Handoff, endpoint: Endpoint) returns (out: Outbox)
      modifies this, sessions, rooms
      ensures State() == StaleEnded(config, old(State()), h, endpoint)
      ensures forall p :: Inbox(out, p) == LoginAnswer(config, old(State()), h, endpoint, p)
    {
      out := map[h.sessionId := [Result(0)]];
      if endpoint in sessions.byEndpoint {
        var stale := sessions.byEndpoint[endpoint];
        if stale in sessions.byId && stale != h.sessionId {
          var ended := EndSession(stale);
          out := Both(out, ended);
        }
      }
    }

  }
}
