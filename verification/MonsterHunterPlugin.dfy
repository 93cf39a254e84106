/** The plugin object: its handlers change rooms, sessions and players in place. */
module MonsterHunterPlugin {
  import opened Snap
  import opened Sessions
  import opened Login
  import opened Rooms
  import opened MonsterHunter

  lemma VacateOne(t: Table, done: set<int>, r: int, s: int)
    requires r in t.rooms && r !in done
    ensures Rooms.Vacated(VacatedEach(t, done, s), r, s) == VacatedEach(t, done + {r}, s)
  {
    var a, b := Rooms.Vacated(VacatedEach(t, done, s), r, s), VacatedEach(t, done + {r}, s);
    assert a.rooms.Keys == b.rooms.Keys;
  }

  lemma VacateNone(t: Table, s: int)
    ensures VacatedEach(t, {}, s) == t
  {
    assert VacatedEach(t, {}, s).rooms == t.rooms;
  }

  class MonsterHunterPlugin {
    const config: Config
    const sessions: SessionRegistry
    const rooms: RoomRegistry
    var players: map<int, Player>

    constructor (config: Config)
      ensures State() == START && this.config == config && fresh(sessions) && fresh(rooms)
    {
      this.config := config;
      sessions := new SessionRegistry();
      rooms := new RoomRegistry();
      players := map[];
    }

    function State(): World
      reads this, sessions, rooms
    {
      World(sessions.State(), rooms.State(), players)
    }

    method LeaveCurrentRoom(s: int, keep: bool)
      requires s in sessions.byId
      modifies sessions, rooms
      ensures State() == RoomLeft(old(State()), s, keep)
    {
      var r := sessions.byId[s].roomId;
      if r > 0 {
        sessions.SetRoom(s, 0);
        if r in rooms.rooms && !(keep && IsTown(rooms.rooms[r])) {
          rooms.Leave(r, s);
        }
      }
    }

    method LeaveListingTowns(s: int)
      requires s in sessions.byId
      modifies rooms
      ensures State() == old(State()).(rooms := VacatedEach(old(rooms.State()), ListingTowns(old(State()), s), s))
    {
      ghost var t := rooms.State();
      var towns := ListingTowns(State(), s);
      var rest := towns;
      VacateNone(t, s);
      while rest != {}
        invariant rest <= towns && rooms.State() == VacatedEach(t, towns - rest, s)
      {
        var r := Pick(rest);
        VacateOne(t, towns - rest, r, s);
        assert towns - (rest - {r}) == towns - rest + {r};
        rooms.Leave(r, s);
        rest := rest - {r};
      }
      assert towns - rest == towns;
    }

    /** Take the player out of its current room and, unless it is kept, its Town listing. */
    method Detach(s: int, keep: bool)
      requires s in sessions.byId
      modifies this, sessions, rooms
      ensures State() == Detached(old(State()), s, keep)
    {
      LeaveCurrentRoom(s, keep);
      if !keep {
        LeaveListingTowns(s);
      }
      if s in players {
        players := players[s := players[s].(alias := None, preparing := false)];
      }
    }

    method HandleLogout(s: int)
      requires s in sessions.byId
      modifies this, sessions, rooms
      ensures State() == Handled(config, old(State()), s, Logout)
    {
      Detach(s, false);
      sessions.SetLobby(s, 0);
      players := players - {s};
    }

    method HandleCreateGameRoom(s: int, name: string, password: string, rules: nat, wanted: nat)
        returns (created: Option<int>)
      requires s in sessions.byId
      modifies this, sessions, rooms
      ensures State() == Handled(config, old(State()), s, CreateRoom(name, password, rules, wanted))
      ensures created == if State() == old(State()) then None else Some(old(rooms.nextId))
    {
      if HasFlag(rules, TOWN_RULES_FLAG) && CategoryFull(rooms.State(), sessions.byId[s].lobbyId, rules) {
        return None;
      }
      ghost var next := rooms.nextId;
      Detach(s, !HasFlag(rules, TOWN_RULES_FLAG));
      var room := rooms.CreateRoom(name, password, rules, Limit(config, wanted), sessions.byId[s].lobbyId, s);
      sessions.SetRoom(s, room);
      assert rooms.nextId == next + 1;
      created := Some(room);
    }

    method HandleJoinArea(s: int, area: int, full: bool)
      requires s in sessions.byId
      modifies this, sessions, rooms
      ensures State() == Handled(config, old(State()), s, JoinArea(area, full))
    {
      if area in config.areas && !full {
        Detach(s, false);
        sessions.SetLobby(s, area);
      }
    }

    method HandleJoinRoom(s: int, requested: int)
      requires s in sessions.byId
      modifies this, sessions, rooms
      ensures State() == Handled(config, old(State()), s, JoinRoom(requested))
    {
      var roomId := ServerRoomId(State(), s, requested);
      if roomId !in rooms.rooms || sessions.byId[s].roomId == roomId {
        return;
      }
      var room := rooms.rooms[roomId];
      Detach(s, s in room.members || !IsTown(room));
      var joined := rooms.Join(roomId, s);
      if joined {
        sessions.SetRoom(s, roomId);
      }
    }

    method HandleLeave(s: int, leaveArea: bool)
      requires s in sessions.byId
      modifies this, sessions, rooms
      ensures State() == Handled(config, old(State()), s, Leave(leaveArea))
    {
      if leaveArea {
        Detach(s, false);
        sessions.SetLobby(s, 0);
      } else {
        var r := sessions.byId[s].roomId;
        var departing := r in rooms.rooms && IsTown(rooms.rooms[r]) && IsDeparting(State(), s);
        Detach(s, departing);
      }
    }

    method HandleChangeAttribute(s: int, word: Option<nat>)
      requires s in sessions.byId
      modifies this, sessions, rooms
      ensures State() == Handled(config, old(State()), s, ChangeRules(word))
    {
      var r := sessions.byId[s].roomId;
      if r in rooms.rooms && word.Some? {
        var rules := word.value;
        if !IsQuestReturn(rooms.rooms[r], rules) {
          rooms.SetRules(r, rules);
        } else {
          var origin := OriginTown(State(), s, rules);
          if origin.Some? {
            ReturnToOrigin(s, r, origin.value);
          }
        }
      }
    }

    /** Move one returning hunter from its quest room back to its Town. */
    method ReturnToOrigin(s: int, quest: int, origin: int)
      requires s in sessions.byId
      modifies this, sessions, rooms
      ensures State() == ReturnedToOrigin(old(State()), s, quest, origin)
    {
      rooms.Leave(quest, s);
      sessions.SetRoom(s, origin);
      if s in players {
        players := players[s := players[s].(alias := Some((quest, origin)))];
      }
    }

    method OnSessionTimeout(s: int)
      requires s in sessions.byId
      modifies this, sessions, rooms
      ensures State() == Forgotten(old(State()), s)
    {
      Detach(s, false);
      players := players - {s};
    }

    method EndSession(s: int)
      requires s in sessions.byId
      modifies this, sessions, rooms
      ensures State() == Ended(old(State()), s)
    {
      OnSessionTimeout(s);
      sessions.Remove(s);
    }

    method EndStale(h: Handoff, endpoint: Endpoint)
      modifies this, sessions, rooms
      ensures State() == StaleEnded(old(State()), h, endpoint)
    {
      if endpoint in sessions.byEndpoint {
        var stale := sessions.byEndpoint[endpoint];
        if stale in sessions.byId && stale != h.sessionId {
          EndSession(stale);
        }
      }
    }

    method HandleLoginToKics(h: Handoff, accepted: bool, endpoint: Endpoint)
      modifies this, sessions, rooms
      ensures State() == LoggedIn(old(State()), h, accepted, endpoint)
    {
      if h.sessionId in sessions.byId {
        Detach(h.sessionId, false);
      }
      if accepted {
        EndStale(h, endpoint);
        Seat(sessions, h, endpoint);
        if h.sessionId !in players {
          players := players[h.sessionId := Player(false, false, None)];
        }
      }
    }
  }
}
