/**
  The Outbreak lobby, File#1 (opensnap/plugins/outbreak/plugin.py) and File#2
  (opensnap/plugins/outbreak2/plugin.py): Areas, rooms, the scenario window
  during which lobby callbacks must not reach a player, and the room list every
  lobby client mirrors.  Numbering, acknowledgement fields and
  the order between different recipients are not part of this model.
 */
module Outbreak {
  import opened Snap
  import opened Sessions
  import opened Login
  import opened Rooms
  import opened RoomList

  const MAX_ROOM_PLAYERS := 4
  const ROOM_CLOSED_FLAG := 0x40000000
  const STATUS_IN_SCENARIO := 1
  const PROFILE_SIZE := 240

  /**
    `areas` and `capacity` come from the directory.  File#2 lists fewer rooms,
    counts its capacity over the whole server, tells an Area who comes and goes,
    and relays Area chat into rooms.
   */
  datatype Config = Config(
    fileTwo: bool,
    areas: set<int>,
    capacity: nat,
    listed: nat,
    perRoom: int,
    perLobby: nat,
    lobbyStatus: nat)

  type Payload = seq<Byte>

  datatype Player = Player(profile: Payload, inScenario: bool, pendingLeaves: seq<int>)

  datatype World = World(reg: Registry, rooms: Table, players: map<int, Player>)

  const START := World(Sessions.EMPTY, NO_ROOMS, map[])

  datatype RoomRow = RoomRow(name: string, users: nat, rules: nat, maxPlayers: int, roomId: int)

  /** What a client is sent; all but the first four are lobby callbacks. */
  datatype Event =
    | Result(status: int)
    | Refusal(code: int)
    | Ack
    | Packet(sender: int, payload: Payload)
    | Joined(who: int)
    | Left(who: int)
    | Property(who: int, profile: Payload)
    | Chat(sender: int, payload: Payload)
    | Target(sender: int, payload: Payload)
    | AreaJoined(who: int)
    | AreaLeft(who: int)
    | RoomChange(change: ListEvent<RoomRow>)

  predicate IsCallback(e: Event) {
    !e.Result? && !e.Refusal? && !e.Ack? && !e.Packet?
  }

  datatype Command =
    | Logout
    | CreateRoom(name: string, password: string, rules: nat, wanted: nat)
    | JoinArea(area: int)
    | JoinRoom(roomId: int, password: string)
    | Leave(leaveArea: bool)
    | ChangeRules(word: Option<nat>)
    | ChangeProperty(profile: Payload)
    | ChangeStatus(status: nat)
    | AreaChat(text: Payload, acked: bool)
    | RoomChat(text: Payload, acked: bool)
    | ScenarioPacket(data: Payload, acked: bool)
    | SendTarget(target: Option<int>, data: Payload, acked: bool)

  datatype Op =
    | Request(sessionId: int, endpoint: Endpoint, command: Command)
    | Login(handoff: Option<Handoff>, accepted: bool, endpoint: Endpoint, profile: Payload)
    | Timeout(sessionId: int, endpoint: Endpoint)

  predicate Reachable(w: World, s: int) {
    s in w.players && !w.players[s].inScenario
  }

  // Leaving a room.

  /** The session's own part of `_leave_room`: all of it when the others are not told. */
  function OutOfRoom(w: World, s: int): World
    requires s in w.reg.byId
  {
    var r := w.reg.byId[s].roomId;
    if r > 0 then World(WithRoom(w.reg, s, 0), Rooms.Vacated(w.rooms, r, s), w.players) else w
  }

  /** The sessions a departure concerns: those still in the room the session was in. */
  function Companions(w: World, s: int): set<int>
    requires s in w.reg.byId
  {
    var r := w.reg.byId[s].roomId;
    if r > 0 && r in w.rooms.rooms then RoomMembers(WithRoom(w.reg, s, 0), r) else {}
  }

  function Deferred(players: map<int, Player>, who: set<int>, s: int): map<int, Player> {
    map p | p in players ::
      if p in who && players[p].inScenario then players[p].(pendingLeaves := players[p].pendingLeaves + [s])
      else players[p]
  }

  /** `_leave_room`: companions in the lobby are told, those in a scenario are owed the departure. */
  function LeftRoom(w: World, s: int): World
    requires s in w.reg.byId
  {
    OutOfRoom(w, s).(players := Deferred(w.players, Companions(w, s), s))
  }

  function LeaveEvents(w: World, s: int, p: int): seq<Event>
    requires s in w.reg.byId
  {
    if p in Companions(w, s) && Reachable(w, p) then [Left(s)] else []
  }

  // Requests.

  predicate Open(room: Rooms.Room) { !HasFlag(room.rules, ROOM_CLOSED_FLAG) }

  function LobbyRooms(t: Table, lobby: int): set<int> {
    set r | r in t.rooms && t.rooms[r].lobbyId == lobby
  }

  predicate MayCreate(c: Config, w: World, s: int)
    requires s in w.reg.byId
  {
    var lobby := w.reg.byId[s].lobbyId;
    lobby in c.areas && |LobbyRooms(w.rooms, lobby)| < c.perLobby
  }

  /** Everybody who is in some Area. */
  function AllInAreas(c: Config, reg: Registry): set<int> {
    set p | p in reg.byId && reg.byId[p].lobbyId in c.areas
  }

  /** File#1 fills an Area, File#2 the server. */
  predicate MayJoinArea(c: Config, w: World, s: int, area: int) {
    && area in c.areas
    && |(if c.fileTwo then AllInAreas(c, w.reg) else LobbyMembers(w.reg, area)) - {s}| < c.capacity
  }

  predicate HasPassword(room: Rooms.Room, password: string) {
    room.password == "" || password == room.password
  }

  predicate MayTryRoom(w: World, s: int, roomId: int, password: string)
    requires s in w.reg.byId
  {
    && roomId in w.rooms.rooms && w.reg.byId[s].roomId != roomId
    && Open(w.rooms.rooms[roomId]) && HasPassword(w.rooms.rooms[roomId], password)
  }

  /** Whether the handler takes the player out of its room, telling the others. */
  predicate Departs(c: Config, w: World, s: int, command: Command)
    requires s in w.reg.byId
  {
    match command
    case Logout => true
    case CreateRoom(_, _, _, _) => MayCreate(c, w, s)
    case JoinArea(area) => MayJoinArea(c, w, s, area)
    case JoinRoom(roomId, password) => MayTryRoom(w, s, roomId, password)
    case Leave(_) => true
    case _ => false
  }

  /** Whether leaving the room is followed by leaving the Area. */
  predicate DepartsArea(c: Config, w: World, s: int, command: Command)
    requires s in w.reg.byId
  {
    Departs(c, w, s, command) && (command.Logout? || command.JoinArea? || (command.Leave? && command.leaveArea))
  }

  /** File#2's `_leave_area` does nothing for a player outside the Areas; File#1 clears the Area outright. */
  function OutOfArea(c: Config, reg: Registry, s: int): Registry
    requires s in reg.byId
  {
    if c.fileTwo && reg.byId[s].lobbyId !in c.areas then reg else WithLobby(reg, s, 0)
  }

  function AreaLeaveEvents(c: Config, w: World, s: int, p: int): seq<Event>
    requires s in w.reg.byId
  {
    if c.fileTwo && InArea(c, w, w.reg.byId[s].lobbyId, p) && p != s && Reachable(w, p) then [AreaLeft(s)] else []
  }

  function Limit(c: Config, wanted: nat): int {
    var atLeastOne := if wanted < 1 then 1 else wanted;
    var atMostFour := if atLeastOne > MAX_ROOM_PLAYERS then MAX_ROOM_PLAYERS else atLeastOne;
    if atMostFour > c.perRoom then c.perRoom else atMostFour
  }

  /** What the handler does once the player is out of its room. */
  function AfterDeparture(c: Config, w: World, s: int, command: Command): World
    requires s in w.reg.byId
  {
    match command
    case Logout => World(OutOfArea(c, w.reg, s), w.rooms, w.players - {s})
    case CreateRoom(name, password, rules, wanted) =>
      World(
        WithRoom(w.reg, s, w.rooms.nextId),
        Created(w.rooms, Rooms.Room(name, password, rules, Limit(c, wanted), w.reg.byId[s].lobbyId, s, {s})),
        w.players)
    case JoinArea(area) => w.(reg := WithLobby(w.reg, s, area))
    case JoinRoom(roomId, _) =>
      if Admits(w.rooms, roomId, s) then World(WithRoom(w.reg, s, roomId), Entered(w.rooms, roomId, s), w.players)
      else w
    case Leave(leaveArea) => if leaveArea then w.(reg := OutOfArea(c, w.reg, s)) else w
    case _ => w
  }

  /** What the other handlers do. */
  function Staying(c: Config, w: World, s: int, command: Command): World
    requires s in w.reg.byId
  {
    match command
    case ChangeRules(Some(word)) => w.(rooms := Ruled(w.rooms, w.reg.byId[s].roomId, word))
    case ChangeProperty(profile) =>
      if s in w.players && |profile| == PROFILE_SIZE then
        w.(players := w.players[s := w.players[s].(profile := profile)])
      else w
    case ChangeStatus(status) =>
      if s !in w.players then w
      else if status == STATUS_IN_SCENARIO then w.(players := w.players[s := w.players[s].(inScenario := true)])
      else if status == c.lobbyStatus then
        w.(players := w.players[s := w.players[s].(inScenario := false, pendingLeaves := [])])
      else w
    case _ => w
  }

  function Handled(c: Config, w: World, s: int, command: Command): World
    requires s in w.reg.byId
  {
    if Departs(c, w, s, command) then AfterDeparture(c, LeftRoom(w, s), s, command) else Staying(c, w, s, command)
  }

  /** The departures a player was owed, as the callbacks that deliver them. */
  function LeaveCallbacks(pending: seq<int>, to: int): seq<Event> {
    if pending == [] then []
    else (if pending[0] != to then [Left(pending[0])] else []) + LeaveCallbacks(pending[1..], to)
  }

  /** The sender's own answer, and after the lobby status what it was owed. */
  function Answer(c: Config, w: World, s: int, command: Command): seq<Event>
    requires s in w.reg.byId
  {
    match command
    case Logout => []
    case CreateRoom(_, _, _, _) => [if MayCreate(c, w, s) then Result(w.rooms.nextId) else Refusal(1)]
    case JoinArea(area) => [if MayJoinArea(c, w, s, area) then Result(0) else Refusal(1)]
    case JoinRoom(roomId, password) =>
      [if roomId in w.rooms.rooms && w.reg.byId[s].roomId == roomId then Result(0)
       else if roomId !in w.rooms.rooms || !Open(w.rooms.rooms[roomId]) then Refusal(1)
       else if !HasPassword(w.rooms.rooms[roomId], password) then Refusal(15)
       else if !Admits(LeftRoom(w, s).rooms, roomId, s) then Refusal(1)
       else Result(0)]
    case ChangeStatus(status) =>
      [Result(0)] + if s in w.players && status == c.lobbyStatus && status != STATUS_IN_SCENARIO
                    then LeaveCallbacks(w.players[s].pendingLeaves, s) else []
    case AreaChat(_, acked) => if acked then [Ack] else []
    case RoomChat(_, acked) => if acked then [Ack] else []
    case ScenarioPacket(_, acked) => if acked then [Ack] else []
    case SendTarget(_, _, acked) => if acked then [Ack] else []
    case _ => [Result(0)]
  }

  /** The other members of the sender's room. */
  function Peers(w: World, s: int): set<int>
    requires s in w.reg.byId
  {
    var r := w.reg.byId[s].roomId;
    if r > 0 then RoomMembers(w.reg, r) - {s} else {}
  }

  predicate InArea(c: Config, w: World, area: int, p: int) {
    area in c.areas && p in LobbyMembers(w.reg, area)
  }

  /** What the handler sends to `p` besides departures: `w` before it, `w'` after. */
  function Relayed(c: Config, w: World, w': World, s: int, command: Command, p: int): seq<Event>
    requires s in w.reg.byId
  {
    match command
    case JoinRoom(roomId, password) =>
      if MayTryRoom(w, s, roomId, password) && Admits(LeftRoom(w, s).rooms, roomId, s)
         && p in RoomMembers(w'.reg, roomId) && p != s && Reachable(w', p)
      then [Joined(s)] else []
    case JoinArea(area) =>
      if c.fileTwo && MayJoinArea(c, w, s, area) && InArea(c, w', area, p) && p != s && Reachable(w', p)
      then [AreaJoined(s)] else []
    case ChangeProperty(profile) =>
      if w.reg.byId[s].roomId in w.rooms.rooms && p in RoomMembers(w.reg, w.reg.byId[s].roomId) && p != s
         && Reachable(w', p)
      then [Property(s, profile)] else []
    case AreaChat(text, _) =>
      if InArea(c, w, w.reg.byId[s].lobbyId, p) && p != s && (c.fileTwo || w.reg.byId[p].roomId <= 0) && Reachable(w, p)
      then [Chat(s, text)] else []
    case RoomChat(text, _) => if p in Peers(w, s) && Reachable(w, p) then [Chat(s, text)] else []
    case ScenarioPacket(data, _) => if p in Peers(w, s) then [Packet(s, data)] else []
    case SendTarget(target, data, _) =>
      if target == Some(p) && p in w.reg.byId && Reachable(w, p) then [Target(s, data)] else []
    case _ => []
  }

  predicate Tracked(command: Command) {
    command.Logout? || command.CreateRoom? || command.JoinArea? || command.JoinRoom? || command.Leave?
    || command.ChangeRules?
  }

  // The room list.

  function Row(id: int, room: Rooms.Room): RoomRow {
    RoomRow(room.name, |room.members|, room.rules, room.maxPlayers, id)
  }

  /** The open rooms of one lobby with an id below `n`, in creation order. */
  function OpenRooms(t: Table, lobby: int, n: nat): seq<int> {
    if n == 0 then []
    else
      var id := n - 1;
      OpenRooms(t, lobby, id)
      + if id in t.rooms && t.rooms[id].lobbyId == lobby && Open(t.rooms[id]) then [id] else []
  }

  function FirstRooms(c: Config, t: Table, lobby: int): seq<int>
    requires t.nextId >= 0
  {
    var rooms := OpenRooms(t, lobby, t.nextId);
    if |rooms| <= c.listed then rooms else rooms[..c.listed]
  }

  predicate IsListed(c: Config, t: Table, id: int) {
    && id in t.rooms && t.nextId >= 0 && t.rooms[id].lobbyId in c.areas
    && id in FirstRooms(c, t, t.rooms[id].lobbyId)
  }

  /** `_listed_rooms`. */
  function ListedRooms(c: Config, t: Table): Directory<RoomRow> {
    map id | id in t.rooms && IsListed(c, t, id) :: Listed(t.rooms[id].lobbyId, Row(id, t.rooms[id]))
  }

  function RoomEvents(changes: seq<ListEvent<RoomRow>>): (events: seq<Event>)
    ensures |events| == |changes| && forall i :: 0 <= i < |events| ==> events[i] == RoomChange(changes[i])
  {
    seq(|changes|, i requires 0 <= i < |changes| => RoomChange(changes[i]))
  }

  /** `_room_list_updates` to one player, who must be in the Area and reachable when they are sent. */
  function ListUpdates(c: Config, before: Table, w: World, p: int): seq<Event> {
    if p in w.reg.byId && w.reg.byId[p].lobbyId in c.areas && Reachable(w, p) && w.rooms.nextId >= 0 then
      RoomEvents(Updates(ListedRooms(c, before), ListedRooms(c, w.rooms), w.reg.byId[p].lobbyId, w.rooms.nextId))
    else []
  }

  // Ending a session, and logging in.

  function Forgotten(c: Config, w: World, s: int): World
    requires s in w.reg.byId
  {
    var w1 := LeftRoom(w, s);
    World(if c.fileTwo then OutOfArea(c, w1.reg, s) else w1.reg, w1.rooms, w1.players - {s})
  }

  /** `_end_session` with this plugin's `on_session_timeout`. */
  function Ended(c: Config, w: World, s: int): World
    requires s in w.reg.byId
  {
    var w1 := Forgotten(c, w, s);
    w1.(reg := Removed(w1.reg, s))
  }

  function EndEvents(c: Config, w: World, s: int, p: int): seq<Event>
    requires s in w.reg.byId
  {
    LeaveEvents(w, s, p) + AreaLeaveEvents(c, w, s, p) + ListUpdates(c, w.rooms, Forgotten(c, w, s), p)
  }

  /** The plugin first takes the session that logs in again out of its room, telling nobody. */
  function Cleared(w: World, h: Handoff): World {
    if h.sessionId in w.reg.byId then OutOfRoom(w, h.sessionId) else w
  }

  function StaleEnded(c: Config, w: World, h: Handoff, endpoint: Endpoint): World {
    if Stale(w.reg, h, endpoint).Some? then Ended(c, w, Stale(w.reg, h, endpoint).value) else w
  }

  function NewPlayer(profile: Payload): Player {
    Player(if |profile| == PROFILE_SIZE then profile else seq(PROFILE_SIZE, _ => 0), false, [])
  }

  function Seated(w: World, h: Handoff, endpoint: Endpoint, profile: Payload): World {
    World(SeatedRegistry(w.reg, h, endpoint), w.rooms, w.players[h.sessionId := NewPlayer(profile)])
  }

  function LoggedIn(c: Config, w: World, h: Handoff, accepted: bool, endpoint: Endpoint, profile: Payload): World {
    var w1 := Cleared(w, h);
    if accepted then Seated(StaleEnded(c, w1, h, endpoint), h, endpoint, profile) else w1
  }

  /** The answer, and what ending the stale session sends. */
  function LoginAnswer(c: Config, w1: World, h: Handoff, endpoint: Endpoint, p: int): seq<Event> {
    (if p == h.sessionId then [Result(0)] else [])
    + if Stale(w1.reg, h, endpoint).Some? then EndEvents(c, w1, Stale(w1.reg, h, endpoint).value, p) else []
  }

  function LoginEvents(c: Config, w: World, h: Handoff, accepted: bool, endpoint: Endpoint, profile: Payload,
      p: int): seq<Event> {
    (if accepted then LoginAnswer(c, Cleared(w, h), h, endpoint, p) else [])
    + ListUpdates(c, w.rooms, LoggedIn(c, w, h, accepted, endpoint, profile), p)
  }

  // Steps.

  function Next(c: Config, w: World, op: Op): World {
    match op
    case Request(sessionId, endpoint, command) =>
      var s := Actor(w.reg, sessionId, endpoint);
      if s.Some? then Handled(c, w, s.value, command) else w
    case Login(h, accepted, endpoint, profile) =>
      if h.Some? then LoggedIn(c, w, h.value, accepted, endpoint, profile) else w
    case Timeout(sessionId, endpoint) =>
      var s := Actor(w.reg, sessionId, endpoint);
      if s.Some? then Ended(c, w, s.value) else w
  }

  /** What the step sends to `p`, in order. */
  function Sent(c: Config, w: World, op: Op, p: int): seq<Event> {
    match op
    case Request(sessionId, endpoint, command) =>
      var s := Actor(w.reg, sessionId, endpoint);
      if s.Some? then RequestEvents(c, w, s.value, command, p) else []
    case Login(h, accepted, endpoint, profile) =>
      if h.Some? then LoginEvents(c, w, h.value, accepted, endpoint, profile, p) else []
    case Timeout(sessionId, endpoint) =>
      var s := Actor(w.reg, sessionId, endpoint);
      if s.Some? then EndEvents(c, w, s.value, p) else []
  }

  /** What the handler itself returns to `p`. */
  function OwnEvents(c: Config, w: World, s: int, command: Command, p: int): seq<Event>
    requires s in w.reg.byId
  {
    (if Departs(c, w, s, command) then LeaveEvents(w, s, p) else [])
    + (if DepartsArea(c, w, s, command) then AreaLeaveEvents(c, w, s, p) else [])
    + (if p == s then Answer(c, w, s, command) else [])
    + Relayed(c, w, Handled(c, w, s, command), s, command, p)
  }

  function RequestEvents(c: Config, w: World, s: int, command: Command, p: int): seq<Event>
    requires s in w.reg.byId
  {
    OwnEvents(c, w, s, command, p)
    + (if Tracked(command) then ListUpdates(c, w.rooms, Handled(c, w, s, command), p) else [])
  }
}
