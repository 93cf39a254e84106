/** A lobby client that applies every room list event it is sent always holds the server's list. */
module OutbreakList {
  import opened Snap
  import opened Sessions
  import opened Login
  import opened Rooms
  import opened RoomList
  import opened Outbreak
  import opened OutbreakRooms

  // What is listed.

  lemma {:induction false} OpenRoomsAre(t: Table, lobby: int, n: nat, id: int)
    ensures id in OpenRooms(t, lobby, n) <==>
            0 <= id < n && id in t.rooms && t.rooms[id].lobbyId == lobby && Open(t.rooms[id])
  {
    if n > 0 { OpenRoomsAre(t, lobby, n - 1, id); }
  }

  lemma {:induction false} OpenRoomsGrow(t: Table, lobby: int, m: nat, n: nat)
    requires m <= n
    ensures OpenRooms(t, lobby, m) <= OpenRooms(t, lobby, n)
    ensures m < n && m in OpenRooms(t, lobby, m + 1) ==>
              |OpenRooms(t, lobby, m)| < |OpenRooms(t, lobby, n)|
                  && OpenRooms(t, lobby, n)[|OpenRooms(t, lobby, m)|] == m
  {
    if m < n { OpenRoomsGrow(t, lobby, m, n - 1); }
    if m + 1 == n { OpenRoomsAre(t, lobby, m, m); }
  }

  lemma {:induction false} OpenRoomsAscend(t: Table, lobby: int, n: nat, i: nat, j: nat)
    requires i < j < |OpenRooms(t, lobby, n)|
    ensures OpenRooms(t, lobby, n)[i] < OpenRooms(t, lobby, n)[j]
  {
    if j < |OpenRooms(t, lobby, n - 1)| {
      OpenRoomsAscend(t, lobby, n - 1, i, j);
    } else {
      OpenRoomsAre(t, lobby, n - 1, OpenRooms(t, lobby, n - 1)[i]);
    }
  }

  /** A room is listed exactly when it is open, in an Area, and fewer than the limit open rooms there are older. */
  lemma ListedIff(c: Config, t: Table, id: int)
    requires WellKept(t, MAX_ROOM_PLAYERS)
    ensures id in ListedRooms(c, t) <==>
            && id in t.rooms && t.rooms[id].lobbyId in c.areas && Open(t.rooms[id])
            && |OpenRooms(t, t.rooms[id].lobbyId, id)| < c.listed
  {
    if id in t.rooms {
      var lobby := t.rooms[id].lobbyId;
      var all, older := OpenRooms(t, lobby, t.nextId), OpenRooms(t, lobby, id);
      OpenRoomsAre(t, lobby, t.nextId, id);
      OpenRoomsAre(t, lobby, id + 1, id);
      if Open(t.rooms[id]) {
        OpenRoomsGrow(t, lobby, id, t.nextId);
        assert |older| < c.listed ==> FirstRooms(c, t, lobby)[|older|] == id;
        if id in FirstRooms(c, t, lobby) {
          var i :| 0 <= i < |FirstRooms(c, t, lobby)| && FirstRooms(c, t, lobby)[i] == id;
          if i < |older| { OpenRoomsAscend(t, lobby, t.nextId, i, |older|); }
          if |older| < i { OpenRoomsAscend(t, lobby, t.nextId, |older|, i); }
        }
      }
    }
  }

  // What a step does to the rooms.

  ghost predicate RoomsStep(w: World, w': World) {
    WellKept(w'.rooms, MAX_ROOM_PLAYERS) && Continues(w.rooms, w'.rooms)
  }

  lemma LeavingStepsRooms(w: World, s: int)
    requires s in w.reg.byId && WellKept(w.rooms, MAX_ROOM_PLAYERS)
    ensures RoomsStep(w, OutOfRoom(w, s)) && RoomsStep(w, LeftRoom(w, s))
  {
    ChangesKeepWellKept(w.rooms, MAX_ROOM_PLAYERS, NO_ROOM, w.reg.byId[s].roomId, s, 0);
    IdsAreNeverReused(w.rooms, MAX_ROOM_PLAYERS, NO_ROOM, w.reg.byId[s].roomId, s, 0);
  }

  lemma AfterDepartureStepsRooms(c: Config, w: World, s: int, command: Command)
    requires c.perRoom >= 1 && s in w.reg.byId && WellKept(w.rooms, MAX_ROOM_PLAYERS)
    ensures RoomsStep(w, AfterDeparture(c, w, s, command))
  {
    match command
    case CreateRoom(name, password, rules, wanted) =>
      var limit := Limit(c, wanted);
      var room := Room(name, password, rules, limit, w.reg.byId[s].lobbyId, s, {s});
      assert 1 <= limit <= MAX_ROOM_PLAYERS;
      ChangesKeepWellKept(w.rooms, MAX_ROOM_PLAYERS, room, 0, 0, 0);
      IdsAreNeverReused(w.rooms, MAX_ROOM_PLAYERS, room, 0, 0, 0);
    case JoinRoom(roomId, _) =>
      ChangesKeepWellKept(w.rooms, MAX_ROOM_PLAYERS, NO_ROOM, roomId, s, 0);
      IdsAreNeverReused(w.rooms, MAX_ROOM_PLAYERS, NO_ROOM, roomId, s, 0);
    case _ =>
  }

  lemma HandledStepsRooms(c: Config, w: World, s: int, command: Command)
    requires c.perRoom >= 1 && s in w.reg.byId && WellKept(w.rooms, MAX_ROOM_PLAYERS)
    ensures RoomsStep(w, Handled(c, w, s, command))
    ensures !Tracked(command) ==> Handled(c, w, s, command).rooms == w.rooms
  {
    if Departs(c, w, s, command) {
      LeavingStepsRooms(w, s);
      AfterDepartureStepsRooms(c, LeftRoom(w, s), s, command);
      ContinuesIsTransitive(w.rooms, LeftRoom(w, s).rooms, Handled(c, w, s, command).rooms);
    } else if command.ChangeRules? && command.word.Some? {
      ChangesKeepWellKept(w.rooms, MAX_ROOM_PLAYERS, NO_ROOM, w.reg.byId[s].roomId, s, command.word.value);
      IdsAreNeverReused(w.rooms, MAX_ROOM_PLAYERS, NO_ROOM, w.reg.byId[s].roomId, s, command.word.value);
    }
  }

  lemma LoginStepsRooms(c: Config, w: World, h: Handoff, accepted: bool, endpoint: Endpoint, profile: Payload)
    requires WellKept(w.rooms, MAX_ROOM_PLAYERS)
    ensures var w1 := Cleared(w, h); var w2 := StaleEnded(c, w1, h, endpoint);
            RoomsStep(w, w1) && RoomsStep(w1, w2) && RoomsStep(w, LoggedIn(c, w, h, accepted, endpoint, profile))
  {
    if h.sessionId in w.reg.byId { LeavingStepsRooms(w, h.sessionId); }
    var w1 := Cleared(w, h);
    if Stale(w1.reg, h, endpoint).Some? { LeavingStepsRooms(w1, Stale(w1.reg, h, endpoint).value); }
    ContinuesIsTransitive(w.rooms, w1.rooms, StaleEnded(c, w1, h, endpoint).rooms);
  }

  /** Every step keeps the room table well kept, never reuses an id and never moves a room. */
  lemma StepKeepsRooms(c: Config, w: World, op: Op)
    requires c.perRoom >= 1 && WellKept(w.rooms, MAX_ROOM_PLAYERS)
    ensures RoomsStep(w, Next(c, w, op))
  {
    match op
    case Request(sessionId, endpoint, command) =>
      var actor := Actor(w.reg, sessionId, endpoint);
      if actor.Some? { HandledStepsRooms(c, w, actor.value, command); }
    case Login(h, accepted, endpoint, profile) =>
      if h.Some? { LoginStepsRooms(c, w, h.value, accepted, endpoint, profile); }
    case Timeout(sessionId, endpoint) =>
      var actor := Actor(w.reg, sessionId, endpoint);
      if actor.Some? { LeavingStepsRooms(w, actor.value); }
  }

  lemma {:induction false} RoomsStayWellKept(c: Config, ops: seq<Op>)
    requires c.perRoom >= 1
    ensures WellKept(After(c, ops).rooms, MAX_ROOM_PLAYERS)
  {
    if ops != [] {
      RoomsStayWellKept(c, ops[..|ops| - 1]);
      StepKeepsRooms(c, After(c, ops[..|ops| - 1]), ops[|ops| - 1]);
    }
  }

  // The client's mirror.

  /** The room list events among what a client is sent. */
  function Changes(events: seq<Event>): seq<ListEvent<RoomRow>> {
    if events == [] then []
    else Changes(events[..|events| - 1])
         + if events[|events| - 1].RoomChange? then [events[|events| - 1].change] else []
  }

  lemma {:induction false} ChangesAppend(a: seq<Event>, b: seq<Event>)
    ensures Changes(a + b) == Changes(a) + Changes(b)
    decreases |b|
  {
    if b == [] {
      assert a + b == a;
    } else {
      ChangesAppend(a, b[..|b| - 1]);
      assert (a + b)[..|a + b| - 1] == a + b[..|b| - 1];
    }
  }

  lemma {:induction false} NoChanges(events: seq<Event>)
    requires forall e :: e in events ==> !e.RoomChange?
    ensures Changes(events) == []
  {
    if events != [] { NoChanges(events[..|events| - 1]); }
  }

  lemma {:induction false} ChangesOfRoomEvents(changes: seq<ListEvent<RoomRow>>)
    ensures Changes(RoomEvents(changes)) == changes
  {
    if changes != [] {
      var n := |changes| - 1;
      ChangesOfRoomEvents(changes[..n]);
      assert RoomEvents(changes)[..n] == RoomEvents(changes[..n]);
    }
  }

  predicate Watching(c: Config, w: World, p: int, area: int) {
    p in w.reg.byId && w.reg.byId[p].lobbyId == area && area in c.areas && Reachable(w, p)
  }

  function List(c: Config, w: World, area: int): map<int, RoomRow> {
    Listing(ListedRooms(c, w.rooms), area)
  }

  lemma ListsAreComparable(c: Config, before: Table, after: Table)
    requires WellKept(before, MAX_ROOM_PLAYERS) && WellKept(after, MAX_ROOM_PLAYERS) && Continues(before, after)
    ensures Comparable(ListedRooms(c, before), ListedRooms(c, after), after.nextId)
  {
  }

  lemma UpdateReplicates(c: Config, before: Table, w: World, p: int, area: int, view: map<int, RoomRow>)
    requires WellKept(before, MAX_ROOM_PLAYERS) && WellKept(w.rooms, MAX_ROOM_PLAYERS) && Continues(before, w.rooms)
    requires Watching(c, w, p, area)
    requires Between(view, Listing(ListedRooms(c, before), area), List(c, w, area))
    ensures ApplyAll(view, Changes(ListUpdates(c, before, w, p))) == List(c, w, area)
  {
    ListsAreComparable(c, before, w.rooms);
    ChangesOfRoomEvents(Updates(ListedRooms(c, before), ListedRooms(c, w.rooms), area, w.rooms.nextId));
    UpdatesReplicate(view, ListedRooms(c, before), ListedRooms(c, w.rooms), area, w.rooms.nextId);
  }

  /** A change nested in another: its update leaves every row at its old or its new value. */
  lemma NestedUpdateIsBetween(c: Config, outer: Table, before: Table, w: World, p: int, area: int)
    requires WellKept(outer, MAX_ROOM_PLAYERS) && WellKept(before, MAX_ROOM_PLAYERS)
    requires WellKept(w.rooms, MAX_ROOM_PLAYERS) && Continues(before, w.rooms) && Watching(c, w, p, area)
    ensures var view := Listing(ListedRooms(c, outer), area);
            Between(ApplyAll(view, Changes(ListUpdates(c, before, w, p))), view, List(c, w, area))
  {
    ListsAreComparable(c, before, w.rooms);
    ChangesOfRoomEvents(Updates(ListedRooms(c, before), ListedRooms(c, w.rooms), area, w.rooms.nextId));
    UpdatesStayBetween(Listing(ListedRooms(c, outer), area), ListedRooms(c, before), ListedRooms(c, w.rooms), area,
                       w.rooms.nextId);
  }

  lemma RequestReplicates(c: Config, w: World, s: int, command: Command, p: int, area: int)
    requires c.perRoom >= 1 && s in w.reg.byId && WellKept(w.rooms, MAX_ROOM_PLAYERS)
    requires Watching(c, Handled(c, w, s, command), p, area)
    ensures ApplyAll(List(c, w, area), Changes(RequestEvents(c, w, s, command, p)))
            == List(c, Handled(c, w, s, command), area)
  {
    var w' := Handled(c, w, s, command);
    RequestChanges(c, w, s, command, p);
    HandledStepsRooms(c, w, s, command);
    if Tracked(command) { UpdateReplicates(c, w.rooms, w', p, area, List(c, w, area)); }
  }

  lemma OwnEventsHaveNoChanges(c: Config, w: World, s: int, command: Command, p: int)
    requires s in w.reg.byId
    ensures Changes(OwnEvents(c, w, s, command, p)) == []
  {
    var leave := if Departs(c, w, s, command) then LeaveEvents(w, s, p) else [];
    var area := if DepartsArea(c, w, s, command) then AreaLeaveEvents(c, w, s, p) else [];
    var answer := if p == s then Answer(c, w, s, command) else [];
    AnswerHasNoChanges(c, w, s, command);
    RelayedHasNoChanges(c, w, Handled(c, w, s, command), s, command, p);
    NoChanges(leave + area + answer);
    ChangesAppend(leave + area + answer, Relayed(c, w, Handled(c, w, s, command), s, command, p));
  }

  lemma RequestChanges(c: Config, w: World, s: int, command: Command, p: int)
    requires s in w.reg.byId
    ensures Changes(RequestEvents(c, w, s, command, p))
         == if Tracked(command) then Changes(ListUpdates(c, w.rooms, Handled(c, w, s, command), p)) else []
  {
    OwnEventsHaveNoChanges(c, w, s, command, p);
    ChangesAppend(OwnEvents(c, w, s, command, p),
                  if Tracked(command) then ListUpdates(c, w.rooms, Handled(c, w, s, command), p) else []);
  }

  lemma RelayedHasNoChanges(c: Config, w: World, w': World, s: int, command: Command, p: int)
    requires s in w.reg.byId
    ensures Changes(Relayed(c, w, w', s, command, p)) == []
  {
    NoChanges(Relayed(c, w, w', s, command, p));
  }

  lemma {:induction false} CallbacksHaveNoChanges(pending: seq<int>, p: int)
    ensures forall e :: e in LeaveCallbacks(pending, p) ==> !e.RoomChange?
  {
    if pending != [] { CallbacksHaveNoChanges(pending[1..], p); }
  }

  lemma AnswerHasNoChanges(c: Config, w: World, s: int, command: Command)
    requires s in w.reg.byId
    ensures forall e :: e in Answer(c, w, s, command) ==> !e.RoomChange?
  {
    if s in w.players { CallbacksHaveNoChanges(w.players[s].pendingLeaves, s); }
  }

  lemma EndChanges(c: Config, w: World, s: int, p: int)
    requires s in w.reg.byId
    ensures Changes(EndEvents(c, w, s, p)) == Changes(ListUpdates(c, w.rooms, Forgotten(c, w, s), p))
  {
    NoChanges(LeaveEvents(w, s, p) + AreaLeaveEvents(c, w, s, p));
    ChangesAppend(LeaveEvents(w, s, p) + AreaLeaveEvents(c, w, s, p), ListUpdates(c, w.rooms, Forgotten(c, w, s), p));
  }

  lemma EndReplicates(c: Config, w: World, s: int, p: int, area: int)
    requires s in w.reg.byId && WellKept(w.rooms, MAX_ROOM_PLAYERS) && Watching(c, Ended(c, w, s), p, area)
    ensures ApplyAll(List(c, w, area), Changes(EndEvents(c, w, s, p))) == List(c, Ended(c, w, s), area)
  {
    EndChanges(c, w, s, p);
    LeavingStepsRooms(w, s);
    assert Watching(c, Forgotten(c, w, s), p, area);
    UpdateReplicates(c, w.rooms, Forgotten(c, w, s), p, area, List(c, w, area));
  }

  lemma LoginAnswerChanges(c: Config, w1: World, h: Handoff, endpoint: Endpoint, p: int)
    ensures var stale := Stale(w1.reg, h, endpoint);
            Changes(LoginAnswer(c, w1, h, endpoint, p))
            == if stale.Some? then Changes(ListUpdates(c, w1.rooms, Forgotten(c, w1, stale.value), p)) else []
  {
    var ok: seq<Event> := if p == h.sessionId then [Result(0)] else [];
    NoChanges(ok);
    if Stale(w1.reg, h, endpoint).Some? {
      var stale := Stale(w1.reg, h, endpoint).value;
      ChangesAppend(ok, EndEvents(c, w1, stale, p));
      EndChanges(c, w1, stale, p);
    } else {
      assert LoginAnswer(c, w1, h, endpoint, p) == ok;
    }
  }

  lemma LoginChanges(c: Config, w: World, h: Handoff, endpoint: Endpoint, profile: Payload, p: int)
    ensures Changes(LoginEvents(c, w, h, true, endpoint, profile, p))
         == Changes(LoginAnswer(c, Cleared(w, h), h, endpoint, p))
            + Changes(ListUpdates(c, w.rooms, LoggedIn(c, w, h, true, endpoint, profile), p))
  {
    ChangesAppend(LoginAnswer(c, Cleared(w, h), h, endpoint, p),
                  ListUpdates(c, w.rooms, LoggedIn(c, w, h, true, endpoint, profile), p));
  }

  /** The session that logs in keeps its Area only if it watched it before; everybody else's Area is untouched. */
  lemma WatchingThroughLogin(c: Config, w: World, h: Handoff, endpoint: Endpoint, profile: Payload, p: int, area: int)
    requires Sound(w.reg) && Watching(c, w, p, area) && Watching(c, LoggedIn(c, w, h, true, endpoint, profile), p, area)
    requires Stale(Cleared(w, h).reg, h, endpoint).Some?
    ensures Watching(c, Forgotten(c, Cleared(w, h), Stale(Cleared(w, h).reg, h, endpoint).value), p, area)
  {
    var w1 := Cleared(w, h);
    var stale := Stale(w1.reg, h, endpoint).value;
    ClearingKeepsSound(w, h);
    StaleIsGone(c, w1, h, endpoint, profile);
    assert Watching(c, w1, p, area) && p != stale;
  }

  lemma ClearingKeepsSound(w: World, h: Handoff)
    requires Sound(w.reg)
    ensures Sound(Cleared(w, h).reg)
  {
  }

  lemma StaleIsGone(c: Config, w1: World, h: Handoff, endpoint: Endpoint, profile: Payload)
    requires Sound(w1.reg) && Stale(w1.reg, h, endpoint).Some?
    ensures Stale(w1.reg, h, endpoint).value !in Seated(StaleEnded(c, w1, h, endpoint), h, endpoint, profile).reg.byId
  {
    var stale := Stale(w1.reg, h, endpoint).value;
    EndingKeepsSound(c, w1, stale);
    SeatingPlaces(StaleEnded(c, w1, h, endpoint).reg, h, endpoint);
  }

  lemma EndingKeepsSound(c: Config, w: World, s: int)
    requires Sound(w.reg) && s in w.reg.byId
    ensures Sound(Ended(c, w, s).reg)
  {
  }

  lemma LoginReplicates(c: Config, w: World, h: Handoff, endpoint: Endpoint, profile: Payload, p: int, area: int)
    requires Sound(w.reg) && WellKept(w.rooms, MAX_ROOM_PLAYERS) && Watching(c, w, p, area)
    requires Watching(c, LoggedIn(c, w, h, true, endpoint, profile), p, area)
    ensures ApplyAll(List(c, w, area), Changes(LoginEvents(c, w, h, true, endpoint, profile, p)))
         == List(c, LoggedIn(c, w, h, true, endpoint, profile), area)
  {
    var w1, w' := Cleared(w, h), LoggedIn(c, w, h, true, endpoint, profile);
    var stale := Stale(w1.reg, h, endpoint);
    LoginStepsRooms(c, w, h, true, endpoint, profile);
    LoginChanges(c, w, h, endpoint, profile, p);
    LoginAnswerChanges(c, w1, h, endpoint, p);
    var outer := Changes(ListUpdates(c, w.rooms, w', p));
    if stale.Some? {
      WatchingThroughLogin(c, w, h, endpoint, profile, p, area);
      var inner := Changes(ListUpdates(c, w1.rooms, Forgotten(c, w1, stale.value), p));
      NestedUpdateIsBetween(c, w.rooms, w1.rooms, Forgotten(c, w1, stale.value), p, area);
      ApplyAllAppends(List(c, w, area), inner, outer);
      UpdateReplicates(c, w.rooms, w', p, area, ApplyAll(List(c, w, area), inner));
    } else {
      assert [] + outer == outer;
      UpdateReplicates(c, w.rooms, w', p, area, List(c, w, area));
    }
  }

  lemma RefusedLoginReplicates(c: Config, w: World, h: Handoff, endpoint: Endpoint, profile: Payload, p: int, area: int)
    requires WellKept(w.rooms, MAX_ROOM_PLAYERS) && Watching(c, LoggedIn(c, w, h, false, endpoint, profile), p, area)
    ensures ApplyAll(List(c, w, area), Changes(LoginEvents(c, w, h, false, endpoint, profile, p)))
         == List(c, LoggedIn(c, w, h, false, endpoint, profile), area)
  {
    var w' := LoggedIn(c, w, h, false, endpoint, profile);
    LoginStepsRooms(c, w, h, false, endpoint, profile);
    assert LoginEvents(c, w, h, false, endpoint, profile, p) == ListUpdates(c, w.rooms, w', p);
    UpdateReplicates(c, w.rooms, w', p, area, List(c, w, area));
  }

  lemma StepReplicates(c: Config, w: World, op: Op, p: int, area: int)
    requires c.perRoom >= 1 && Sound(w.reg) && WellKept(w.rooms, MAX_ROOM_PLAYERS)
    requires Watching(c, w, p, area) && Watching(c, Next(c, w, op), p, area)
    ensures ApplyAll(List(c, w, area), Changes(Sent(c, w, op, p))) == List(c, Next(c, w, op), area)
  {
    match op
    case Request(sessionId, endpoint, command) =>
      var actor := Actor(w.reg, sessionId, endpoint);
      if actor.Some? { RequestReplicates(c, w, actor.value, command, p, area); }
    case Login(h, accepted, endpoint, profile) =>
      if h.Some? {
        if accepted { LoginReplicates(c, w, h.value, endpoint, profile, p, area); }
        else { RefusedLoginReplicates(c, w, h.value, endpoint, profile, p, area); }
      }
    case Timeout(sessionId, endpoint) =>
      var actor := Actor(w.reg, sessionId, endpoint);
      if actor.Some? { EndReplicates(c, w, actor.value, p, area); }
  }

  lemma LeavingKeepsSound(w: World, s: int)
    requires Sound(w.reg) && s in w.reg.byId
    ensures Sound(OutOfRoom(w, s).reg) && Sound(LeftRoom(w, s).reg)
  {
  }

  lemma HandledKeepsSound(c: Config, w: World, s: int, command: Command)
    requires Sound(w.reg) && s in w.reg.byId
    ensures Sound(Handled(c, w, s, command).reg)
  {
    if Departs(c, w, s, command) {
      LeavingKeepsSound(w, s);
      DepartedKeepsSound(c, LeftRoom(w, s), s, command);
    }
  }

  lemma DepartedKeepsSound(c: Config, w: World, s: int, command: Command)
    requires Sound(w.reg) && s in w.reg.byId
    ensures Sound(AfterDeparture(c, w, s, command).reg)
  {
  }

  lemma LoginKeepsSound(c: Config, w: World, h: Handoff, accepted: bool, endpoint: Endpoint, profile: Payload)
    requires Sound(w.reg)
    ensures Sound(LoggedIn(c, w, h, accepted, endpoint, profile).reg)
  {
    if h.sessionId in w.reg.byId { LeavingKeepsSound(w, h.sessionId); }
    var w1 := Cleared(w, h);
    if Stale(w1.reg, h, endpoint).Some? { EndingKeepsSound(c, w1, Stale(w1.reg, h, endpoint).value); }
    SeatingPlaces(StaleEnded(c, w1, h, endpoint).reg, h, endpoint);
  }

  lemma StepKeepsSound(c: Config, w: World, op: Op)
    requires Sound(w.reg)
    ensures Sound(Next(c, w, op).reg)
  {
    match op
    case Request(sessionId, endpoint, command) =>
      var actor := Actor(w.reg, sessionId, endpoint);
      if actor.Some? { HandledKeepsSound(c, w, actor.value, command); }
    case Login(h, accepted, endpoint, profile) =>
      if h.Some? { LoginKeepsSound(c, w, h.value, accepted, endpoint, profile); }
    case Timeout(sessionId, endpoint) =>
      var actor := Actor(w.reg, sessionId, endpoint);
      if actor.Some? { EndingKeepsSound(c, w, actor.value); }
  }

  lemma {:induction false} RegistryStaysSound(c: Config, ops: seq<Op>)
    ensures Sound(After(c, ops).reg)
  {
    if ops != [] {
      RegistryStaysSound(c, ops[..|ops| - 1]);
      StepKeepsSound(c, After(c, ops[..|ops| - 1]), ops[|ops| - 1]);
    }
  }

  /** The list events `p` is sent from step `k` on, step by step. */
  function Received(c: Config, ops: seq<Op>, k: nat, p: int): seq<seq<ListEvent<RoomRow>>>
    requires k <= |ops|
  {
    seq(|ops| - k, i requires 0 <= i < |ops| - k => Changes(Sent(c, After(c, ops[..k + i]), ops[k + i], p)))
  }

  lemma PrefixReplicates(c: Config, ops: seq<Op>, n: nat, p: int, area: int)
    requires c.perRoom >= 1 && n < |ops|
    requires Watching(c, After(c, ops[..n]), p, area) && Watching(c, After(c, ops[..n + 1]), p, area)
    ensures ApplyAll(List(c, After(c, ops[..n]), area), Changes(Sent(c, After(c, ops[..n]), ops[n], p)))
         == List(c, After(c, ops[..n + 1]), area)
  {
    assert ops[..n + 1][..n] == ops[..n];
    RegistryStaysSound(c, ops[..n]);
    RoomsStayWellKept(c, ops[..n]);
    StepReplicates(c, After(c, ops[..n]), ops[n], p, area);
  }

  function Lists(c: Config, ops: seq<Op>, k: nat, area: int): seq<map<int, RoomRow>>
    requires k <= |ops|
  {
    seq(|ops| - k + 1, i requires 0 <= i <= |ops| - k => List(c, After(c, ops[..k + i]), area))
  }

  lemma ListsAt(c: Config, ops: seq<Op>, k: nat, area: int, n: nat)
    requires k <= n <= |ops|
    ensures Lists(c, ops, k, area)[n - k] == List(c, After(c, ops[..n]), area)
  {
  }

  lemma ReceivedAt(c: Config, ops: seq<Op>, k: nat, p: int, n: nat)
    requires k <= n < |ops|
    ensures Received(c, ops, k, p)[n - k] == Changes(Sent(c, After(c, ops[..n]), ops[n], p))
  {
  }

  lemma ListsStep(c: Config, ops: seq<Op>, k: nat, p: int, area: int, n: nat)
    requires c.perRoom >= 1 && k <= n < |ops|
    requires Watching(c, After(c, ops[..n]), p, area) && Watching(c, After(c, ops[..n + 1]), p, area)
    ensures ApplyAll(Lists(c, ops, k, area)[n - k], Received(c, ops, k, p)[n - k]) == Lists(c, ops, k, area)[n - k + 1]
  {
    ListsAt(c, ops, k, area, n);
    ReceivedAt(c, ops, k, p, n);
    ListsAt(c, ops, k, area, n + 1);
    PrefixReplicates(c, ops, n, p, area);
  }

  /**
    Room directory replication: a client that stays in one Area and reachable
    from step `k` on, and applies every list event it is sent to the list it
    had then, holds the server's list, however rooms open, close, fill or
    come into the capped list meanwhile.
   */
  lemma ClientMirrorsTheList(c: Config, ops: seq<Op>, k: nat, p: int, area: int)
    requires c.perRoom >= 1 && k <= |ops| && forall i :: k <= i <= |ops| ==> Watching(c, After(c, ops[..i]), p, area)
    ensures ApplyAll(List(c, After(c, ops[..k]), area), Flat(Received(c, ops, k, p))) == List(c, After(c, ops), area)
  {
    var lists, changes := Lists(c, ops, k, area), Received(c, ops, k, p);
    forall i | 0 <= i < |changes| ensures ApplyAll(lists[i], changes[i]) == lists[i + 1] {
      ListsStep(c, ops, k, p, area, k + i);
    }
    MirrorsStepByStep(lists, changes);
    ListsAt(c, ops, k, area, k);
    ListsAt(c, ops, k, area, |ops|);
    assert ops[..|ops|] == ops;
  }
}
