/** The Town directory (`_town_directory_updates`): a client that applies every Town event holds the server's list. */
module MonsterHunterList {
  import opened Snap
  import opened Sessions
  import opened Login
  import opened Rooms
  import opened RoomList
  import opened MonsterHunter
  import opened MonsterHunterTowns

  datatype TownRow = TownRow(name: string, users: nat, rules: nat, maxPlayers: int, roomId: int)

  predicate IsListed(c: Config, room: Room) {
    room.lobbyId in c.areas && IsTown(room) && !HasFlag(room.rules, QUEST_STARTED_RULES_FLAG)
  }

  /** `_listed_towns`. */
  function ListedTowns(c: Config, t: Table): Directory<TownRow> {
    map id | id in t.rooms && IsListed(c, t.rooms[id]) ::
      var room := t.rooms[id];
      Listed(room.lobbyId,
             TownRow(room.name, |room.members|, room.rules, if room.maxPlayers < c.perRoom then room.maxPlayers
                 else c.perRoom, id))
  }

  predicate InStartedQuest(w: World, p: int)
    requires p in w.reg.byId
  {
    var r := w.reg.byId[p].roomId;
    r > 0 && r in w.rooms.rooms && QuestStarted(w.rooms.rooms[r])
  }

  /** Whether `p` is sent the Town events of `area`. */
  predicate Watching(c: Config, w: World, p: int, area: int) {
    p in w.reg.byId && w.reg.byId[p].lobbyId == area && area in c.areas && !InStartedQuest(w, p)
  }

  function TownUpdates(c: Config, before: Table, w: World, p: int): seq<ListEvent<TownRow>> {
    if p in w.reg.byId && w.rooms.nextId >= 0 && Watching(c, w, p, w.reg.byId[p].lobbyId)
    then Updates(ListedTowns(c, before), ListedTowns(c, w.rooms), w.reg.byId[p].lobbyId, w.rooms.nextId)
    else []
  }

  /** The Town events a step sends to `p`; a login that ends a stale session sends two updates, one inside the other. */
  function Sent(c: Config, w: World, op: Op, p: int): seq<ListEvent<TownRow>> {
    match op
    case Request(sessionId, endpoint, command) =>
      var s := Actor(w.reg, sessionId, endpoint);
      if s.Some? && Tracked(command) then TownUpdates(c, w.rooms, Next(c, w, op), p) else []
    case Login(h, accepted, endpoint) => if h.Some? then LoginEvents(c, w, h.value, accepted, endpoint, p) else []
    case Timeout(sessionId, endpoint) =>
      var s := Actor(w.reg, sessionId, endpoint);
      if s.Some? then TownUpdates(c, w.rooms, Forgotten(w, s.value), p) else []
  }

  function LoginEvents(c: Config, w: World, h: Handoff, accepted: bool, endpoint: Endpoint,
      p: int): seq<ListEvent<TownRow>> {
    var w1 := Cleared(w, h);
    var stale := Stale(w1.reg, h, endpoint);
    (if accepted && stale.Some? then TownUpdates(c, w1.rooms, Forgotten(w1, stale.value), p) else [])
    + TownUpdates(c, w.rooms, LoggedIn(w, h, accepted, endpoint), p)
  }

  // Rooms over a step.

  ghost predicate RoomsStep(c: Config, w: World, w': World) {
    WellKept(w'.rooms, c.perRoom) && Continues(w.rooms, w'.rooms)
  }

  lemma VacatedEachSteps(c: Config, t: Table, towns: set<int>, s: int)
    requires WellKept(t, c.perRoom)
    ensures WellKept(VacatedEach(t, towns, s), c.perRoom) && Continues(t, VacatedEach(t, towns, s))
  {
    VacatingEachKeepsWellKept(t, c.perRoom, towns, s);
  }

  lemma DetachedSteps(c: Config, w: World, s: int, keep: bool)
    requires s in w.reg.byId && WellKept(w.rooms, c.perRoom)
    ensures RoomsStep(c, w, Detached(w, s, keep))
    ensures s in Detached(w, s, keep).reg.byId
  {
    var w1 := RoomLeft(w, s, keep);
    ChangesKeepWellKept(w.rooms, c.perRoom, NO_ROOM, w.reg.byId[s].roomId, s, 0);
    IdsAreNeverReused(w.rooms, c.perRoom, NO_ROOM, w.reg.byId[s].roomId, s, 0);
    assert s in w1.reg.byId;
    VacatedEachSteps(c, w1.rooms, ListingTowns(w1, s), s);
    ContinuesIsTransitive(w.rooms, w1.rooms, Detached(w, s, keep).rooms);
  }

  lemma CreatingSteps(c: Config, w: World, s: int, name: string, password: string, rules: nat, wanted: nat)
    requires s in w.reg.byId && WellKept(w.rooms, c.perRoom) && c.perRoom >= 1
    ensures RoomsStep(c, w, RoomCreated(c, w, s, name, password, rules, wanted))
  {
    var w1 := Detached(w, s, !HasFlag(rules, TOWN_RULES_FLAG));
    DetachedSteps(c, w, s, !HasFlag(rules, TOWN_RULES_FLAG));
    assert 1 <= Limit(c, wanted) <= c.perRoom;
    var room := Room(name, password, rules, Limit(c, wanted), w1.reg.byId[s].lobbyId, s, {s});
    ChangesKeepWellKept(w1.rooms, c.perRoom, room, 0, 0, 0);
    IdsAreNeverReused(w1.rooms, c.perRoom, room, 0, 0, 0);
    ContinuesIsTransitive(w.rooms, w1.rooms, Rooms.Created(w1.rooms, room));
  }

  lemma JoiningSteps(c: Config, w: World, s: int, roomId: int)
    requires s in w.reg.byId && WellKept(w.rooms, c.perRoom)
    ensures RoomsStep(c, w, RoomJoined(w, s, roomId))
  {
    if roomId in w.rooms.rooms && w.reg.byId[s].roomId != roomId {
      var keep := Lists(w.rooms, roomId, s) || !IsTown(w.rooms.rooms[roomId]);
      var w1 := Detached(w, s, keep);
      DetachedSteps(c, w, s, keep);
      ChangesKeepWellKept(w1.rooms, c.perRoom, NO_ROOM, roomId, s, 0);
      IdsAreNeverReused(w1.rooms, c.perRoom, NO_ROOM, roomId, s, 0);
      ContinuesIsTransitive(w.rooms, w1.rooms, RoomJoined(w, s, roomId).rooms);
    }
  }

  lemma RulesSteps(c: Config, w: World, s: int, rules: nat)
    requires s in w.reg.byId && WellKept(w.rooms, c.perRoom)
    ensures RoomsStep(c, w, RulesChanged(w, s, rules))
  {
    ChangesKeepWellKept(w.rooms, c.perRoom, NO_ROOM, w.reg.byId[s].roomId, s, rules);
    IdsAreNeverReused(w.rooms, c.perRoom, NO_ROOM, w.reg.byId[s].roomId, s, rules);
  }

  lemma HandledSteps(c: Config, w: World, s: int, command: Command)
    requires s in w.reg.byId && WellKept(w.rooms, c.perRoom) && c.perRoom >= 1
    ensures RoomsStep(c, w, Handled(c, w, s, command))
    ensures !Tracked(command) ==> Handled(c, w, s, command).rooms == w.rooms
  {
    match command
    case CreateRoom(name, password, rules, wanted) => CreatingSteps(c, w, s, name, password, rules, wanted);
    case JoinRoom(roomId) => JoiningSteps(c, w, s, ServerRoomId(w, s, roomId));
    case ChangeRules(word) => if word.Some? { RulesSteps(c, w, s, word.value); }
    case Leave(leaveArea) => DetachedSteps(c, w, s, true); DetachedSteps(c, w, s, false);
    case _ => DetachedSteps(c, w, s, false);
  }

  lemma LoginSteps(c: Config, w: World, h: Handoff, accepted: bool, endpoint: Endpoint)
    requires WellKept(w.rooms, c.perRoom)
    ensures var w1 := Cleared(w, h); var w2 := StaleEnded(w1, h, endpoint);
            RoomsStep(c, w, w1) && RoomsStep(c, w1, w2) && RoomsStep(c, w, LoggedIn(w, h, accepted, endpoint))
  {
    if h.sessionId in w.reg.byId { DetachedSteps(c, w, h.sessionId, false); }
    var w1 := Cleared(w, h);
    if Stale(w1.reg, h, endpoint).Some? { DetachedSteps(c, w1, Stale(w1.reg, h, endpoint).value, false); }
    ContinuesIsTransitive(w.rooms, w1.rooms, StaleEnded(w1, h, endpoint).rooms);
  }

  lemma StepKeepsRooms(c: Config, w: World, op: Op)
    requires c.perRoom >= 1 && WellKept(w.rooms, c.perRoom)
    ensures RoomsStep(c, w, Next(c, w, op))
  {
    match op
    case Request(sessionId, endpoint, command) =>
      var actor := Actor(w.reg, sessionId, endpoint);
      if actor.Some? { HandledSteps(c, w, actor.value, command); }
    case Login(h, accepted, endpoint) => if h.Some? { LoginSteps(c, w, h.value, accepted, endpoint); }
    case Timeout(sessionId, endpoint) =>
      var actor := Actor(w.reg, sessionId, endpoint);
      if actor.Some? { DetachedSteps(c, w, actor.value, false); }
  }

  // The client's mirror.

  function TownList(c: Config, t: Table, area: int): map<int, TownRow> {
    Listing(ListedTowns(c, t), area)
  }

  lemma ListsAreComparable(c: Config, before: Table, after: Table)
    requires WellKept(before, c.perRoom) && WellKept(after, c.perRoom) && Continues(before, after)
    ensures Comparable(ListedTowns(c, before), ListedTowns(c, after), after.nextId)
  {
  }

  lemma UpdateReplicates(c: Config, before: Table, w: World, p: int, area: int, view: map<int, TownRow>)
    requires WellKept(before, c.perRoom) && WellKept(w.rooms, c.perRoom) && Continues(before, w.rooms)
    requires Watching(c, w, p, area) && Between(view, TownList(c, before, area), TownList(c, w.rooms, area))
    ensures ApplyAll(view, TownUpdates(c, before, w, p)) == TownList(c, w.rooms, area)
  {
    ListsAreComparable(c, before, w.rooms);
    UpdatesReplicate(view, ListedTowns(c, before), ListedTowns(c, w.rooms), area, w.rooms.nextId);
  }

  /** Somebody else's departure does not stop a client from watching. */
  lemma OthersLeaving(c: Config, w: World, s: int, p: int, area: int)
    requires s in w.reg.byId && Watching(c, w, p, area) && p != s && WellKept(w.rooms, c.perRoom)
    ensures Watching(c, Forgotten(w, s), p, area)
  {
    DetachedSteps(c, w, s, false);
    var w', r := Forgotten(w, s), w.reg.byId[p].roomId;
    assert w'.reg.byId[p] == w.reg.byId[p];
    if r in w'.rooms.rooms {
      VacatedSameRules(w, s, r);
    }
  }

  lemma VacatedSameRules(w: World, s: int, r: int)
    requires s in w.reg.byId && r in Detached(w, s, false).rooms.rooms
    ensures r in w.rooms.rooms && Detached(w, s, false).rooms.rooms[r].rules == w.rooms.rooms[r].rules
  {
  }

  lemma OwnClearing(c: Config, w: World, h: Handoff, p: int, area: int)
    requires Watching(c, w, p, area) && WellKept(w.rooms, c.perRoom)
    requires h.sessionId in w.reg.byId ==> w.reg.byId[h.sessionId].roomId >= 0
    ensures Watching(c, Cleared(w, h), p, area)
  {
    if h.sessionId in w.reg.byId && p != h.sessionId { OthersLeaving(c, w, h.sessionId, p, area); }
  }

  lemma StaleIsGone(w1: World, h: Handoff, endpoint: Endpoint)
    requires Sound(w1.reg) && Stale(w1.reg, h, endpoint).Some?
    ensures Stale(w1.reg, h, endpoint).value !in Seated(StaleEnded(w1, h, endpoint), h, endpoint).reg.byId
  {
    var stale := Stale(w1.reg, h, endpoint).value;
    EndingKeepsSound(w1, stale);
    SeatingPlaces(StaleEnded(w1, h, endpoint).reg, h, endpoint);
  }

  lemma EndingKeepsSound(w: World, s: int)
    requires Sound(w.reg) && s in w.reg.byId
    ensures Sound(Detached(w, s, false).reg) && Sound(Ended(w, s).reg) && s !in Ended(w, s).reg.byId
  {
  }

  /** The state in which a client watches, and what of it every step keeps. */
  ghost predicate Ready(c: Config, w: World) {
    Sound(w.reg) && WellKept(w.rooms, c.perRoom) && forall s :: s in w.reg.byId ==> w.reg.byId[s].roomId >= 0
  }

  lemma LoginReplicates(c: Config, w: World, h: Handoff, accepted: bool, endpoint: Endpoint, p: int, area: int)
    requires Ready(c, w) && Watching(c, w, p, area) && Watching(c, LoggedIn(w, h, accepted, endpoint), p, area)
    ensures ApplyAll(TownList(c, w.rooms, area), LoginEvents(c, w, h, accepted, endpoint, p))
         == TownList(c, LoggedIn(w, h, accepted, endpoint).rooms, area)
  {
    var w1, w' := Cleared(w, h), LoggedIn(w, h, accepted, endpoint);
    var stale := Stale(w1.reg, h, endpoint);
    var outer := TownUpdates(c, w.rooms, w', p);
    LoginSteps(c, w, h, accepted, endpoint);
    if accepted && stale.Some? {
      OwnClearing(c, w, h, p, area);
      if h.sessionId in w.reg.byId { EndingKeepsSound(w, h.sessionId); }
      StaleIsGone(w1, h, endpoint);
      OthersLeaving(c, w1, stale.value, p, area);
      var w2 := Forgotten(w1, stale.value);
      ListsAreComparable(c, w1.rooms, w2.rooms);
      UpdatesStayBetween(TownList(c, w.rooms, area), ListedTowns(c, w1.rooms), ListedTowns(c, w2.rooms), area,
          w2.rooms.nextId);
      ApplyAllAppends(TownList(c, w.rooms, area), TownUpdates(c, w1.rooms, w2, p), outer);
      UpdateReplicates(c, w.rooms, w', p, area, ApplyAll(TownList(c, w.rooms, area), TownUpdates(c, w1.rooms, w2, p)));
    } else {
      assert LoginEvents(c, w, h, accepted, endpoint, p) == outer;
      UpdateReplicates(c, w.rooms, w', p, area, TownList(c, w.rooms, area));
    }
  }

  lemma RequestReplicates(c: Config, w: World, s: int, command: Command, p: int, area: int)
    requires c.perRoom >= 1 && s in w.reg.byId && WellKept(w.rooms, c.perRoom)
    requires Watching(c, Handled(c, w, s, command), p, area)
    ensures Tracked(command) ==>
              ApplyAll(TownList(c, w.rooms, area), TownUpdates(c, w.rooms, Handled(c, w, s, command), p))
              == TownList(c, Handled(c, w, s, command).rooms, area)
    ensures !Tracked(command) ==> Handled(c, w, s, command).rooms == w.rooms
  {
    HandledSteps(c, w, s, command);
    if Tracked(command) {
      UpdateReplicates(c, w.rooms, Handled(c, w, s, command), p, area, TownList(c, w.rooms, area));
    }
  }

  /**
    Town directory replication: whatever the step, a client that watches an
    Area before and after it and applies the events it was sent to the list it
    had holds the list after it.
   */
  lemma StepReplicates(c: Config, w: World, op: Op, p: int, area: int)
    requires c.perRoom >= 1 && Ready(c, w) && Watching(c, w, p, area) && Watching(c, Next(c, w, op), p, area)
    ensures ApplyAll(TownList(c, w.rooms, area), Sent(c, w, op, p)) == TownList(c, Next(c, w, op).rooms, area)
  {
    match op
    case Request(sessionId, endpoint, command) =>
      var actor := Actor(w.reg, sessionId, endpoint);
      if actor.Some? { RequestReplicates(c, w, actor.value, command, p, area); }
    case Login(h, accepted, endpoint) =>
      if h.Some? { LoginReplicates(c, w, h.value, accepted, endpoint, p, area); }
    case Timeout(sessionId, endpoint) =>
      var actor := Actor(w.reg, sessionId, endpoint);
      if actor.Some? {
        DetachedSteps(c, w, actor.value, false);
        assert Watching(c, Forgotten(w, actor.value), p, area);
        UpdateReplicates(c, w.rooms, Forgotten(w, actor.value), p, area, TownList(c, w.rooms, area));
      }
  }

  // Whole runs.

  ghost predicate Placed(reg: Registry) {
    Sound(reg) && forall s :: s in reg.byId ==> reg.byId[s].roomId >= 0
  }

  lemma MovesKeepPlaced(reg: Registry, s: int, lobby: int, room: int)
    requires Placed(reg) && room >= 0
    ensures Placed(WithLobby(reg, s, lobby)) && Placed(WithRoom(reg, s, room)) && Placed(Removed(reg, s))
  {
  }

  lemma DetachedKeepsPlaced(w: World, s: int, keep: bool)
    requires s in w.reg.byId && Placed(w.reg)
    ensures Placed(Detached(w, s, keep).reg)
  {
    MovesKeepPlaced(w.reg, s, 0, 0);
  }

  lemma HandledKeepsPlaced(c: Config, w: World, s: int, command: Command)
    requires s in w.reg.byId && Placed(w.reg) && WellKept(w.rooms, c.perRoom)
    ensures Placed(Handled(c, w, s, command).reg)
  {
    match command
    case Logout => DetachedKeepsPlaced(w, s, false); MovesKeepPlaced(Detached(w, s, false).reg, s, 0, 0);
    case CreateRoom(_, _, rules, _) =>
      var keep := !HasFlag(rules, TOWN_RULES_FLAG);
      DetachedKeepsPlaced(w, s, keep);
      DetachedSteps(c, w, s, keep);
      MovesKeepPlaced(Detached(w, s, keep).reg, s, 0, Detached(w, s, keep).rooms.nextId);
    case JoinArea(area, _) => DetachedKeepsPlaced(w, s, false); MovesKeepPlaced(Detached(w, s, false).reg, s, area, 0);
    case JoinRoom(roomId) => JoiningKeepsPlaced(c, w, s, ServerRoomId(w, s, roomId));
    case Leave(_) =>
      DetachedKeepsPlaced(w, s, true);
      DetachedKeepsPlaced(w, s, false);
      MovesKeepPlaced(Detached(w, s, false).reg, s, 0, 0);
    case ChangeRules(word) => if word.Some? { RulesKeepPlaced(c, w, s, word.value); }
    case _ =>
  }

  lemma JoiningKeepsPlaced(c: Config, w: World, s: int, roomId: int)
    requires s in w.reg.byId && Placed(w.reg) && WellKept(w.rooms, c.perRoom)
    ensures Placed(RoomJoined(w, s, roomId).reg)
  {
    if roomId in w.rooms.rooms {
      var keep := Lists(w.rooms, roomId, s) || !IsTown(w.rooms.rooms[roomId]);
      DetachedKeepsPlaced(w, s, keep);
      MovesKeepPlaced(Detached(w, s, keep).reg, s, 0, roomId);
    }
  }

  lemma RulesKeepPlaced(c: Config, w: World, s: int, rules: nat)
    requires s in w.reg.byId && Placed(w.reg) && WellKept(w.rooms, c.perRoom)
    ensures Placed(RulesChanged(w, s, rules).reg)
  {
    var origin := OriginTown(w, s, rules);
    if origin.Some? {
      assert origin.value in ListingTowns(w, s);
      MovesKeepPlaced(w.reg, s, 0, origin.value);
    }
  }

  lemma EndedKeepsPlaced(w: World, s: int)
    requires s in w.reg.byId && Placed(w.reg)
    ensures Placed(Ended(w, s).reg)
  {
    DetachedKeepsPlaced(w, s, false);
    MovesKeepPlaced(Detached(w, s, false).reg, s, 0, 0);
  }

  lemma SeatingKeepsPlaced(reg: Registry, h: Handoff, endpoint: Endpoint)
    requires Placed(reg)
    ensures Placed(SeatedRegistry(reg, h, endpoint))
  {
    SeatingPlaces(reg, h, endpoint);
    if Adopts(reg, h) { AdoptingPlaces(reg, h); }
  }

  lemma LoginKeepsPlaced(w: World, h: Handoff, accepted: bool, endpoint: Endpoint)
    requires Placed(w.reg)
    ensures Placed(LoggedIn(w, h, accepted, endpoint).reg)
  {
    if h.sessionId in w.reg.byId { DetachedKeepsPlaced(w, h.sessionId, false); }
    var w1 := Cleared(w, h);
    if Stale(w1.reg, h, endpoint).Some? { EndedKeepsPlaced(w1, Stale(w1.reg, h, endpoint).value); }
    SeatingKeepsPlaced(StaleEnded(w1, h, endpoint).reg, h, endpoint);
  }

  lemma StepKeepsReady(c: Config, w: World, op: Op)
    requires c.perRoom >= 1 && Ready(c, w)
    ensures Ready(c, Next(c, w, op))
  {
    StepKeepsRooms(c, w, op);
    assert Placed(Next(c, w, op).reg) by {
      match op
      case Request(sessionId, endpoint, command) =>
        var actor := Actor(w.reg, sessionId, endpoint);
        if actor.Some? { HandledKeepsPlaced(c, w, actor.value, command); }
      case Login(h, accepted, endpoint) => if h.Some? { LoginKeepsPlaced(w, h.value, accepted, endpoint); }
      case Timeout(sessionId, endpoint) =>
        var actor := Actor(w.reg, sessionId, endpoint);
        if actor.Some? { EndedKeepsPlaced(w, actor.value); }
    }
  }

  ghost predicate WatchingThroughout(c: Config, w: World, ops: seq<Op>, p: int, area: int)
    decreases |ops|
  {
    Watching(c, w, p, area) && (ops == [] || WatchingThroughout(c, Next(c, w, ops[0]), ops[1..], p, area))
  }

  function Received(c: Config, w: World, ops: seq<Op>, p: int): seq<ListEvent<TownRow>>
    decreases |ops|
  {
    if ops == [] then [] else Sent(c, w, ops[0], p) + Received(c, Next(c, w, ops[0]), ops[1..], p)
  }

  /** Town directory replication over every run through which the client watches one Area. */
  lemma {:induction false} ClientMirrorsTheTowns(c: Config, w: World, ops: seq<Op>, p: int, area: int)
    requires c.perRoom >= 1 && Ready(c, w) && WatchingThroughout(c, w, ops, p, area)
    ensures ApplyAll(TownList(c, w.rooms, area), Received(c, w, ops, p)) == TownList(c, After(c, w, ops).rooms, area)
    decreases |ops|
  {
    if ops != [] {
      var w1, rest := Next(c, w, ops[0]), Received(c, Next(c, w, ops[0]), ops[1..], p);
      StepReplicates(c, w, ops[0], p, area);
      StepKeepsReady(c, w, ops[0]);
      ClientMirrorsTheTowns(c, w1, ops[1..], p, area);
      ApplyAllAppends(TownList(c, w.rooms, area), Sent(c, w, ops[0], p), rest);
    }
  }
}
