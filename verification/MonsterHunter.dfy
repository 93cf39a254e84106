/**
  Monster Hunter Towns and quests (opensnap/plugins/monsterhunter/plugin.py): a
  hunter away on a quest stays listed in its Town and comes back to it.  The
  callbacks inside a room and the profiles are not part of this model; the Town
  directory events are.
 */
module MonsterHunter {
  import opened Snap
  import opened Sessions
  import opened Login
  import opened Rooms

  const TOWN_RULES_FLAG := 0x00000004
  const QUEST_STARTED_RULES_FLAG := 0x40000000
  const TOWNS_PER_CATEGORY := 21

  datatype Config = Config(areas: set<int>, perRoom: nat)

  /** `departingProfile`: the last published profile holds the departing state 3/5. */
  datatype Player = Player(departingProfile: bool, preparing: bool, alias: Option<(int, int)>)

  datatype World = World(reg: Registry, rooms: Table, players: map<int, Player>)

  const START := World(Sessions.EMPTY, NO_ROOMS, map[])

  datatype Command =
    | Logout
    | CreateRoom(name: string, password: string, rules: nat, wanted: nat)
    | JoinArea(area: int, full: bool)
    | JoinRoom(roomId: int)
    | Leave(leaveArea: bool)
    | ChangeRules(word: Option<nat>)
    | PublishProfile(departing: bool)
    | PrepareDeparture

  datatype Op =
    | Request(sessionId: int, endpoint: Endpoint, command: Command)
    | Login(handoff: Option<Handoff>, accepted: bool, endpoint: Endpoint)
    | Timeout(sessionId: int, endpoint: Endpoint)

  predicate IsTown(room: Room) { HasFlag(room.rules, TOWN_RULES_FLAG) }

  predicate QuestStarted(room: Room) { !IsTown(room) && HasFlag(room.rules, QUEST_STARTED_RULES_FLAG) }

  predicate IsQuestReturn(room: Room, rules: nat) { !IsTown(room) && HasFlag(rules, TOWN_RULES_FLAG) }

  // Leaving.

  predicate Lists(t: Table, r: int, s: int) {
    r in t.rooms && s in t.rooms[r].members
  }

  /** Towns of the hunter's Area that list it without it being there. */
  function ListingTowns(w: World, s: int): set<int>
    requires s in w.reg.byId
  {
    set r | r in w.rooms.rooms && w.rooms.rooms[r].lobbyId == w.reg.byId[s].lobbyId && IsTown(w.rooms.rooms[r])
            && r != w.reg.byId[s].roomId && Lists(w.rooms, r, s)
  }

  /** `leave` called for each of some rooms. */
  function VacatedEach(t: Table, towns: set<int>, s: int): Table {
    t.(rooms := map r | r in t.rooms && !(r in towns && t.rooms[r].members - {s} == {}) ::
         if r in towns then t.rooms[r].(members := t.rooms[r].members - {s}) else t.rooms[r])
  }

  function Rested(players: map<int, Player>, s: int): map<int, Player> {
    if s in players then players[s := players[s].(alias := None, preparing := false)] else players
  }

  function RoomLeft(w: World, s: int, keep: bool): World
    requires s in w.reg.byId
  {
    var r := w.reg.byId[s].roomId;
    World(
      if r > 0 then WithRoom(w.reg, s, 0) else w.reg,
      if r > 0 && r in w.rooms.rooms && !(keep && IsTown(w.rooms.rooms[r])) then Rooms.Vacated(w.rooms, r, s)
          else w.rooms,
      w.players)
  }

  /** `_detach`: out of the current room, and out of the listing Towns unless the listing is kept. */
  function Detached(w: World, s: int, keep: bool): World
    requires s in w.reg.byId
  {
    var w1 := RoomLeft(w, s, keep);
    World(w1.reg, if keep then w1.rooms else VacatedEach(w1.rooms, ListingTowns(w1, s), s), Rested(w.players, s))
  }

  // Requests.

  function Category(rules: nat): nat { rules / 0x1000000 % 8 }

  predicate CategoryFull(t: Table, lobby: int, rules: nat) {
    |set r | r in t.rooms && t.rooms[r].lobbyId == lobby && IsTown(t.rooms[r])
             && Category(t.rooms[r].rules) == Category(rules)| >= TOWNS_PER_CATEGORY
  }

  function Limit(c: Config, wanted: nat): int {
    var atLeastOne := if wanted < 1 then 1 else wanted;
    if atLeastOne > c.perRoom then c.perRoom else atLeastOne
  }

  predicate IsDeparting(w: World, s: int) {
    s in w.players && (w.players[s].preparing || w.players[s].departingProfile)
  }

  /** The room a request names, after a quest by the quest room's id. */
  function ServerRoomId(w: World, s: int, roomId: int): int {
    if s in w.players && w.players[s].alias.Some? && w.players[s].alias.value.0 == roomId
    then w.players[s].alias.value.1 else roomId
  }

  function RoomCreated(c: Config, w: World, s: int, name: string, password: string, rules: nat, wanted: nat): World
    requires s in w.reg.byId
  {
    if HasFlag(rules, TOWN_RULES_FLAG) && CategoryFull(w.rooms, w.reg.byId[s].lobbyId, rules) then w
    else
      var w1 := Detached(w, s, !HasFlag(rules, TOWN_RULES_FLAG));
      World(
        WithRoom(w1.reg, s, w1.rooms.nextId),
        Rooms.Created(w1.rooms, Room(name, password, rules, Limit(c, wanted), w1.reg.byId[s].lobbyId, s, {s})),
        w1.players)
  }

  function RoomJoined(w: World, s: int, roomId: int): World
    requires s in w.reg.byId
  {
    if roomId !in w.rooms.rooms || w.reg.byId[s].roomId == roomId then w
    else
      var w1 := Detached(w, s, Lists(w.rooms, roomId, s) || !IsTown(w.rooms.rooms[roomId]));
      if Admits(w1.rooms, roomId, s) then World(WithRoom(w1.reg, s, roomId), Entered(w1.rooms, roomId, s), w1.players)
      else w1
  }

  function Left(w: World, s: int, leaveArea: bool): World
    requires s in w.reg.byId
  {
    if leaveArea then
      var w1 := Detached(w, s, false);
      w1.(reg := WithLobby(w1.reg, s, 0))
    else
      var r := w.reg.byId[s].roomId;
      Detached(w, s, r in w.rooms.rooms && IsTown(w.rooms.rooms[r]) && IsDeparting(w, s))
  }

  lemma SoleElement<T>(s: set<T>)
    requires |s| == 1
    ensures exists x :: x in s && s == {x}
  {
    var x :| x in s;
    assert |s - {x}| == 0;
    assert s == {x};
  }

  function Only<T(==)>(s: set<T>): (x: T)
    requires |s| == 1
    ensures s == {x}
  {
    SoleElement(s);
    var x :| x in s && s == {x};
    x
  }

  /** The one Town with these rules that lists the hunter, if there is exactly one. */
  function OriginTown(w: World, s: int, rules: nat): Option<int>
    requires s in w.reg.byId
  {
    var towns := set r | r in ListingTowns(w, s) && w.rooms.rooms[r].rules == rules;
    if |towns| == 1 then Some(Only(towns)) else None
  }

  function ReturnedToOrigin(w: World, s: int, quest: int, origin: int): World {
    World(
      WithRoom(w.reg, s, origin),
      Rooms.Vacated(w.rooms, quest, s),
      if s in w.players then w.players[s := w.players[s].(alias := Some((quest, origin)))] else w.players)
  }

  function RulesChanged(w: World, s: int, rules: nat): World
    requires s in w.reg.byId
  {
    var r := w.reg.byId[s].roomId;
    if r !in w.rooms.rooms then w
    else if !IsQuestReturn(w.rooms.rooms[r], rules) then w.(rooms := Ruled(w.rooms, r, rules))
    else if OriginTown(w, s, rules).Some? then ReturnedToOrigin(w, s, r, OriginTown(w, s, rules).value)
    else w
  }

  function Handled(c: Config, w: World, s: int, command: Command): World
    requires s in w.reg.byId
  {
    match command
    case Logout =>
      var w1 := Detached(w, s, false);
      World(WithLobby(w1.reg, s, 0), w1.rooms, w1.players - {s})
    case CreateRoom(name, password, rules, wanted) => RoomCreated(c, w, s, name, password, rules, wanted)
    case JoinArea(area, full) =>
      if area !in c.areas || full then w
      else
        var w1 := Detached(w, s, false);
        w1.(reg := WithLobby(w1.reg, s, area))
    case JoinRoom(roomId) => RoomJoined(w, s, ServerRoomId(w, s, roomId))
    case Leave(leaveArea) => Left(w, s, leaveArea)
    case ChangeRules(word) => if word.Some? then RulesChanged(w, s, word.value) else w
    case PublishProfile(departing) =>
      if s in w.players then w.(players := w.players[s := w.players[s].(departingProfile := departing)]) else w
    case PrepareDeparture =>
      if s in w.players then w.(players := w.players[s := w.players[s].(preparing := true)]) else w
  }

  predicate Tracked(command: Command) {
    !command.PublishProfile? && !command.PrepareDeparture?
  }

  // Ending a session, and logging in.

  function Forgotten(w: World, s: int): World
    requires s in w.reg.byId
  {
    var w1 := Detached(w, s, false);
    w1.(players := w1.players - {s})
  }

  function Ended(w: World, s: int): World
    requires s in w.reg.byId
  {
    var w1 := Forgotten(w, s);
    w1.(reg := Removed(w1.reg, s))
  }

  function Cleared(w: World, h: Handoff): World {
    if h.sessionId in w.reg.byId then Detached(w, h.sessionId, false) else w
  }

  function StaleEnded(w: World, h: Handoff, endpoint: Endpoint): World {
    if Stale(w.reg, h, endpoint).Some? then Ended(w, Stale(w.reg, h, endpoint).value) else w
  }

  function Seated(w: World, h: Handoff, endpoint: Endpoint): World {
    World(SeatedRegistry(w.reg, h, endpoint), w.rooms,
          if h.sessionId in w.players then w.players else w.players[h.sessionId := Player(false, false, None)])
  }

  function LoggedIn(w: World, h: Handoff, accepted: bool, endpoint: Endpoint): World {
    if accepted then Seated(StaleEnded(Cleared(w, h), h, endpoint), h, endpoint) else Cleared(w, h)
  }

  function Next(c: Config, w: World, op: Op): World {
    match op
    case Request(sessionId, endpoint, command) =>
      var s := Actor(w.reg, sessionId, endpoint);
      if s.Some? then Handled(c, w, s.value, command) else w
    case Login(h, accepted, endpoint) =>
      if h.Some? then LoggedIn(w, h.value, accepted, endpoint) else w
    case Timeout(sessionId, endpoint) =>
      var s := Actor(w.reg, sessionId, endpoint);
      if s.Some? then Ended(w, s.value) else w
  }

  function After(c: Config, w: World, ops: seq<Op>): World
    decreases |ops|
  {
    if ops == [] then w else After(c, Next(c, w, ops[0]), ops[1..])
  }
}
