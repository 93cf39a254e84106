/** The way of one hunter from its Town into a quest and back. */
module MonsterHunterQuest {
  import opened Snap
  import opened Sessions
  import opened Login
  import opened Rooms
  import opened MonsterHunter
  import opened MonsterHunterTowns

  /** Listed in Town `t` without being there. */
  predicate Away(w: World, h: int, t: int) {
    h in w.reg.byId && ListsTown(w, t, h) && w.reg.byId[h].roomId != t
  }

  predicate InTown(w: World, h: int, t: int) {
    h in w.reg.byId && ListsTown(w, t, h) && w.reg.byId[h].roomId == t
  }

  /** The ways out of a Town that keep it: a departing leave, creating a quest room, joining one. */
  predicate Departs(w: World, h: int, command: Command)
    requires h in w.reg.byId
  {
    match command
    case Leave(leaveArea) => !leaveArea && IsDeparting(w, h)
    case CreateRoom(_, _, rules, _) => !HasFlag(rules, TOWN_RULES_FLAG)
    case JoinRoom(roomId) =>
      var r := ServerRoomId(w, h, roomId);
      r in w.rooms.rooms && !IsTown(w.rooms.rooms[r])
    case _ => false
  }

  /** What a hunter may ask for on the way without giving its Town up, the return itself apart. */
  predicate OnTheWay(c: Config, w: World, h: int, t: int, command: Command)
    requires h in w.reg.byId && t in w.rooms.rooms
  {
    match command
    case CreateRoom(_, _, rules, _) => !HasFlag(rules, TOWN_RULES_FLAG)
    case JoinRoom(roomId) =>
      var r := ServerRoomId(w, h, roomId);
      r !in w.rooms.rooms || !IsTown(w.rooms.rooms[r])
    case JoinArea(area, full) => area !in c.areas || full
    case ChangeRules(word) => word.Some? ==> word.value != w.rooms.rooms[t].rules
    case PublishProfile(_) => true
    case PrepareDeparture => true
    case _ => false
  }

  /** The step neither ends the hunter's session nor is its own giving up of the Town. */
  predicate Spares(c: Config, w: World, op: Op, h: int, t: int)
    requires t in w.rooms.rooms
  {
    match op
    case Request(sessionId, endpoint, command) =>
      Actor(w.reg, sessionId, endpoint) == Some(h) && h in w.reg.byId ==> OnTheWay(c, w, h, t, command)
    case Login(handoff, accepted, endpoint) =>
      handoff.Some? ==>
        handoff.value.sessionId != h
        && (accepted ==> Stale(Cleared(w, handoff.value).reg, handoff.value, endpoint) != Some(h))
    case Timeout(sessionId, endpoint) => Actor(w.reg, sessionId, endpoint) != Some(h)
  }

  lemma KeptIsAway(w: World, w': World, h: int, t: int)
    requires Away(w, h, t) && Keeps(w, w', h)
    ensures Away(w', h, t)
  {
    assert Lists(w'.rooms, t, h);
  }

  // The hunter's own steps.

  /** Detaching with the listing kept leaves the Town as it is, from inside as from outside. */
  lemma KeptTownIsUntouched(c: Config, w: World, h: int, t: int)
    requires Good(c, w) && h in w.reg.byId && ListsTown(w, t, h)
    ensures var w' := Detached(w, h, true);
            ListsTown(w', t, h) && w'.rooms.rooms[t] == w.rooms.rooms[t] && w'.reg.byId[h].roomId == 0
                && h in w'.reg.byId
  {
    assert HunterOk(w, h);
    var w' := Detached(w, h, true);
    DetachedLists(w, h, true, t, h);
    forall x ensures x in w'.rooms.rooms[t].members <==> x in w.rooms.rooms[t].members {
      DetachedLists(w, h, true, t, x);
      assert Lists(w.rooms, t, x) <==> x in w.rooms.rooms[t].members;
      assert Lists(w'.rooms, t, x) <==> x in w'.rooms.rooms[t].members;
    }
  }

  lemma TownsAreOld(c: Config, w: World, h: int, t: int)
    requires Good(c, w) && Lists(w.rooms, t, h)
    ensures 0 < t < w.rooms.nextId
  {
  }

  /** Creating a quest room, from the Town or on the way, leaves the Town untouched. */
  lemma CreatingQuest(c: Config, w: World, h: int, t: int, name: string, password: string, rules: nat, wanted: nat)
    requires Good(c, w) && h in w.reg.byId && ListsTown(w, t, h) && !HasFlag(rules, TOWN_RULES_FLAG)
    ensures var w' := RoomCreated(c, w, h, name, password, rules, wanted);
            Away(w', h, t) && w'.rooms.rooms[t] == w.rooms.rooms[t]
  {
    KeptTownIsUntouched(c, w, h, t);
    TownsAreOld(c, w, h, t);
    assert Alike(w.rooms, Detached(w, h, true).rooms) by { assert HunterOk(w, h); DetachedLists(w, h, true, t, h); }
    assert RoomCreated(c, w, h, name, password, rules, wanted).reg.byId[h].roomId == w.rooms.nextId;
  }

  lemma JoiningQuest(c: Config, w: World, h: int, t: int, roomId: int)
    requires Good(c, w) && h in w.reg.byId && ListsTown(w, t, h)
    requires roomId in w.rooms.rooms && !IsTown(w.rooms.rooms[roomId]) && w.reg.byId[h].roomId != roomId
    ensures var w' := RoomJoined(w, h, roomId); Away(w', h, t) && w'.rooms.rooms[t] == w.rooms.rooms[t]
  {
    KeptTownIsUntouched(c, w, h, t);
    TownsAreOld(c, w, h, t);
  }

  lemma NotReturning(w: World, h: int, t: int, rules: nat)
    requires HunterOk(w, h) && Away(w, h, t) && !Strands(w, h, rules) && rules != w.rooms.rooms[t].rules
    ensures var w' := RulesChanged(w, h, rules); Away(w', h, t) && w'.rooms.rooms[t] == w.rooms.rooms[t]
  {
    var r := w.reg.byId[h].roomId;
    if r in w.rooms.rooms && IsQuestReturn(w.rooms.rooms[r], rules) { OriginIsTheTown(w, h, rules); }
  }

  lemma OwnStep(c: Config, w: World, h: int, t: int, command: Command)
    requires Good(c, w) && Away(w, h, t) && OnTheWay(c, w, h, t, command) && !Misplaces(w, h, command)
    ensures var w' := Handled(c, w, h, command); Away(w', h, t) && w'.rooms.rooms[t] == w.rooms.rooms[t]
  {
    match command
    case CreateRoom(name, password, rules, wanted) => CreatingQuest(c, w, h, t, name, password, rules, wanted);
    case JoinRoom(roomId) =>
      var r := ServerRoomId(w, h, roomId);
      if r in w.rooms.rooms && w.reg.byId[h].roomId != r { JoiningQuest(c, w, h, t, r); }
    case ChangeRules(word) =>
      assert HunterOk(w, h);
      if word.Some? { NotReturning(w, h, t, word.value); }
    case _ =>
  }

  // Everybody else's.

  lemma RulesOfOthers(c: Config, w: World, s: int, h: int, t: int, rules: nat)
    requires Good(c, w) && s in w.reg.byId && s != h && Away(w, h, t) && !Strands(w, s, rules)
    ensures Away(RulesChanged(w, s, rules), h, t)
  {
    var r := w.reg.byId[s].roomId;
    if r in w.rooms.rooms {
      if IsQuestReturn(w.rooms.rooms[r], rules) {
        assert HunterOk(w, s);
        OriginIsTheTown(w, s, rules);
        var origin := OriginTown(w, s, rules);
        if origin.Some? {
          ReturnKeepsGood(c, w, s, origin.value);
          assert Keeps(w, RulesChanged(w, s, rules), h);
          KeptIsAway(w, RulesChanged(w, s, rules), h, t);
        }
      } else {
        assert r == t && h in w.rooms.rooms[t].members ==> HasFlag(rules, TOWN_RULES_FLAG);
      }
    }
  }

  lemma LeavingKeepsOthers(c: Config, w: World, s: int, leaveArea: bool)
    requires Good(c, w) && c.perRoom >= 1 && s in w.reg.byId
    ensures OthersKept(w, Left(w, s, leaveArea), s)
  {
    MovingAreaIsOk(c, w, s, 0);
    var r := w.reg.byId[s].roomId;
    DetachedIsOk(c, w, s, r in w.rooms.rooms && IsTown(w.rooms.rooms[r]) && IsDeparting(w, s));
  }

  lemma LogoutKeepsOthers(c: Config, w: World, s: int)
    requires Good(c, w) && c.perRoom >= 1 && s in w.reg.byId
    ensures OthersKept(w, Handled(c, w, s, Logout), s)
  {
    MovingAreaIsOk(c, w, s, 0);
    var w1 := Detached(w, s, false);
    var moved := w1.(reg := WithLobby(w1.reg, s, 0));
    PlayersDoNotMatter(c, moved, w1.players - {s});
    KeepsIsTransitive(w, moved, Handled(c, w, s, Logout), s);
  }

  lemma HandlingKeepsOthers(c: Config, w: World, s: int, command: Command)
    requires Good(c, w) && c.perRoom >= 1 && s in w.reg.byId && !command.ChangeRules?
    ensures OthersKept(w, Handled(c, w, s, command), s)
  {
    match command
    case Logout => LogoutKeepsOthers(c, w, s);
    case CreateRoom(name, password, rules, wanted) => CreatingIsOk(c, w, s, name, password, rules, wanted);
    case JoinArea(area, full) => MovingAreaIsOk(c, w, s, area);
    case JoinRoom(roomId) => JoiningIsOkIff(c, w, s, ServerRoomId(w, s, roomId));
    case Leave(leaveArea) => LeavingKeepsOthers(c, w, s, leaveArea);
    case _ =>
  }

  lemma RequestOfOthers(c: Config, w: World, s: int, h: int, t: int, command: Command)
    requires Good(c, w) && c.perRoom >= 1 && s in w.reg.byId && s != h && Away(w, h, t) && !Misplaces(w, s, command)
    ensures Away(Handled(c, w, s, command), h, t)
  {
    if command.ChangeRules? {
      if command.word.Some? { RulesOfOthers(c, w, s, h, t, command.word.value); }
    } else {
      HandlingKeepsOthers(c, w, s, command);
      assert Keeps(w, Handled(c, w, s, command), h);
      KeptIsAway(w, Handled(c, w, s, command), h, t);
    }
  }

  lemma LoginOfOthers(c: Config, w: World, o: Handoff, accepted: bool, endpoint: Endpoint, h: int, t: int)
    requires Good(c, w) && c.perRoom >= 1 && Away(w, h, t) && o.sessionId != h
    requires accepted ==> Stale(Cleared(w, o).reg, o, endpoint) != Some(h)
    requires !OrphaningLogin(w, Login(Some(o), accepted, endpoint))
    ensures Away(LoggedIn(w, o, accepted, endpoint), h, t)
  {
    ClearingIsOk(c, w, o, endpoint);
    var w1 := Cleared(w, o);
    assert Keeps(w, w1, h);
    KeptIsAway(w, w1, h, t);
    if accepted {
      var w2 := StaleEnded(w1, o, endpoint);
      if Stale(w1.reg, o, endpoint).Some? {
        assert Keeps(w1, w2, h);
        KeptIsAway(w1, w2, h, t);
      }
      assert HunterOk(w2, h) && Lists(w2.rooms, t, h);
      SeatingHunter(w2, o, endpoint, h);
      KeptIsAway(w2, LoggedIn(w, o, accepted, endpoint), h, t);
    }
  }

  lemma StepKeepsAway(c: Config, w: World, op: Op, h: int, t: int)
    requires Good(c, w) && c.perRoom >= 1 && Away(w, h, t) && Spares(c, w, op, h, t) && !Misbehaves(w, op)
    ensures Away(Next(c, w, op), h, t)
    ensures op.Request? && Actor(w.reg, op.sessionId, op.endpoint) == Some(h) ==>
              Next(c, w, op).rooms.rooms[t] == w.rooms.rooms[t]
  {
    match op
    case Request(sessionId, endpoint, command) =>
      var actor := Actor(w.reg, sessionId, endpoint);
      if actor == Some(h) {
        OwnStep(c, w, h, t, command);
      } else if actor.Some? {
        RequestOfOthers(c, w, actor.value, h, t, command);
      }
    case Login(o, accepted, endpoint) => if o.Some? { LoginOfOthers(c, w, o.value, accepted, endpoint, h, t); }
    case Timeout(sessionId, endpoint) =>
      var actor := Actor(w.reg, sessionId, endpoint);
      if actor.Some? {
        EndingIsOk(c, w, actor.value);
        KeptIsAway(w, Next(c, w, op), h, t);
      }
  }

  // The round trip.

  /** No step gives the Town up or breaks the places (`t` is there throughout, as the next lemma shows). */
  ghost predicate Trip(c: Config, w: World, ops: seq<Op>, h: int, t: int)
    decreases |ops|
  {
    ops == []
    || (t in w.rooms.rooms && !Misbehaves(w, ops[0]) && Spares(c, w, ops[0], h, t)
        && Trip(c, Next(c, w, ops[0]), ops[1..], h, t))
  }

  /** Whatever everybody does meanwhile, the Town goes on listing the hunter. */
  lemma {:induction false} TownWaits(c: Config, w: World, ops: seq<Op>, h: int, t: int)
    requires Good(c, w) && c.perRoom >= 1 && Away(w, h, t) && Trip(c, w, ops, h, t)
    ensures Good(c, After(c, w, ops)) && Away(After(c, w, ops), h, t)
    decreases |ops|
  {
    if ops != [] {
      StepKeepsGoodIff(c, w, ops[0]);
      StepKeepsAway(c, w, ops[0], h, t);
      TownWaits(c, Next(c, w, ops[0]), ops[1..], h, t);
    }
  }

  /** Leaving the Town for a quest leaves it exactly as it was. */
  lemma DepartureKeepsTheTown(c: Config, w: World, h: int, t: int, command: Command)
    requires Good(c, w) && InTown(w, h, t) && Departs(w, h, command)
    ensures var w' := Handled(c, w, h, command); Away(w', h, t) && w'.rooms.rooms[t] == w.rooms.rooms[t]
  {
    match command
    case Leave(_) => KeptTownIsUntouched(c, w, h, t); TownsAreOld(c, w, h, t);
    case CreateRoom(name, password, rules, wanted) => CreatingQuest(c, w, h, t, name, password, rules, wanted);
    case JoinRoom(roomId) => JoiningQuest(c, w, h, t, ServerRoomId(w, h, roomId));
  }

  /** The return lands in that Town exactly when it names its rules, and changes nothing in it. */
  lemma ReturnLandsIff(c: Config, w: World, h: int, t: int, rules: nat)
    requires Good(c, w) && Away(w, h, t) && w.reg.byId[h].roomId > 0 && HasFlag(rules, TOWN_RULES_FLAG)
    ensures var w' := Handled(c, w, h, ChangeRules(Some(rules)));
            && (h in w'.reg.byId && w'.reg.byId[h].roomId == t <==> rules == w.rooms.rooms[t].rules)
            && (rules == w.rooms.rooms[t].rules ==>
                  Good(c, w') && InTown(w', h, t) && w'.rooms.rooms[t] == w.rooms.rooms[t]
                  && !Lists(w'.rooms, w.reg.byId[h].roomId, h))
            && (rules != w.rooms.rooms[t].rules ==> w' == w)
  {
    var quest := w.reg.byId[h].roomId;
    assert HunterOk(w, h);
    assert Lists(w.rooms, quest, h);
    assert ListsTown(w, quest, h) ==> quest == t;
    OriginIsTheTown(w, h, rules);
    if rules == w.rooms.rooms[t].rules {
      ReturnKeepsGood(c, w, h, t);
      VacatingLists(w.rooms, quest, h, quest, h);
      VacatingLists(w.rooms, quest, h, t, h);
    }
  }

  /**
    The quest round trip: a hunter that leaves its Town for a quest, whatever
    it and the others do on the way short of giving the Town up, and asks from
    its quest room to return to a Town with the rules its Town has then, is
    back in that Town, listed there throughout.
   */
  lemma RoundTrip(c: Config, w: World, h: int, t: int, departure: Command, ops: seq<Op>)
    requires Good(c, w) && c.perRoom >= 1 && InTown(w, h, t) && Departs(w, h, departure) && !Misplaces(w, h, departure)
    requires Trip(c, Handled(c, w, h, departure), ops, h, t)
    requires var w2 := After(c, Handled(c, w, h, departure), ops);
             h in w2.reg.byId && w2.reg.byId[h].roomId > 0
    ensures var w2 := After(c, Handled(c, w, h, departure), ops);
            h in w2.reg.byId && t in w2.rooms.rooms
            && InTown(Handled(c, w2, h, ChangeRules(Some(w2.rooms.rooms[t].rules))), h, t)
  {
    HandlingIsOkIff(c, w, h, departure);
    DepartureKeepsTheTown(c, w, h, t, departure);
    var w1 := Handled(c, w, h, departure);
    TownWaits(c, w1, ops, h, t);
    var w2 := After(c, w1, ops);
    ReturnLandsIff(c, w2, h, t, w2.rooms.rooms[t].rules);
  }
}
