/**
  Who is in an Area.  A File#2 lobby client counts the viewer's Area up and down
  with the Area callbacks; the server admits nobody beyond its capacity.
 */
module OutbreakAreas {
  import opened Snap
  import opened Sessions
  import opened Login
  import opened Rooms
  import opened Outbreak
  import opened OutbreakRooms
  import opened OutbreakList

  /** The directories number their Areas from 1; 0 is no Area. */
  predicate Numbered(c: Config) {
    forall area :: area in c.areas ==> area >= 1
  }

  // The count a client keeps.

  function Net(events: seq<Event>): int {
    if events == [] then 0
    else
      var e := events[|events| - 1];
      Net(events[..|events| - 1]) + if e.AreaJoined? then 1 else if e.AreaLeft? then -1 else 0
  }

  lemma {:induction false} NetAppend(a: seq<Event>, b: seq<Event>)
    ensures Net(a + b) == Net(a) + Net(b)
    decreases |b|
  {
    if b == [] {
      assert a + b == a;
    } else {
      NetAppend(a, b[..|b| - 1]);
      assert (a + b)[..|a + b| - 1] == a + b[..|b| - 1];
    }
  }

  lemma {:induction false} NoNet(events: seq<Event>)
    requires forall e :: e in events ==> !e.AreaJoined? && !e.AreaLeft?
    ensures Net(events) == 0
  {
    if events != [] { NoNet(events[..|events| - 1]); }
  }

  lemma NetOne(e: Event)
    ensures Net([e]) == if e.AreaJoined? then 1 else if e.AreaLeft? then -1 else 0
  {
    assert [e][..0] == [];
  }

  function One(b: bool): int { if b then 1 else 0 }

  // One step.

  lemma SetSteps(a: set<int>, s: int)
    ensures |a - {s}| == |a| - One(s in a)
    ensures |a + {s}| == |a| + One(s !in a)
  {
    if s in a { assert a + {s} == a; } else { assert a - {s} == a; }
  }

  lemma DepartedMembers(c: Config, w: World, s: int, command: Command, area: int)
    requires c.fileTwo && Numbered(c) && area in c.areas && s in w.reg.byId
    ensures var before := LobbyMembers(w.reg, area);
            LobbyMembers(AfterDeparture(c, w, s, command).reg, area)
            == if command.JoinArea? then before - {s} + if command.area == area then {s} else {}
               else if command.Logout? || (command.Leave? && command.leaveArea) then before - {s}
               else before
  {
  }

  lemma HandledMembers(c: Config, w: World, s: int, command: Command, area: int)
    requires c.fileTwo && Numbered(c) && area in c.areas && s in w.reg.byId
    ensures var before := LobbyMembers(w.reg, area);
            LobbyMembers(Handled(c, w, s, command).reg, area)
            == if !DepartsArea(c, w, s, command) then before
               else if command.JoinArea? && command.area == area then before - {s} + {s}
               else before - {s}
  {
    assert LobbyMembers(LeftRoom(w, s).reg, area) == LobbyMembers(w.reg, area);
    DepartedMembers(c, LeftRoom(w, s), s, command, area);
    hide AfterDeparture, LeftRoom, LobbyMembers, MayJoinArea, MayTryRoom, MayCreate;
  }

  lemma AreaLeaveCounts(c: Config, w: World, s: int, p: int, area: int)
    requires c.fileTwo && s in w.reg.byId && Watching(c, w, p, area) && p != s
    ensures Net(AreaLeaveEvents(c, w, s, p)) == -One(s in LobbyMembers(w.reg, area))
  {
    NetOne(AreaLeft(s));
  }

  lemma RelayedCounts(c: Config, w: World, s: int, command: Command, p: int, area: int)
    requires c.fileTwo && s in w.reg.byId && Watching(c, Handled(c, w, s, command), p, area) && p != s
    ensures Net(Relayed(c, w, Handled(c, w, s, command), s, command, p))
         == One(command.JoinArea? && command.area == area && DepartsArea(c, w, s, command))
  {
    if command.JoinArea? {
      NetOne(AreaJoined(s));
    } else {
      NoNet(Relayed(c, w, Handled(c, w, s, command), s, command, p));
    }
  }

  lemma {:induction false} CallbacksDoNotCount(pending: seq<int>, p: int)
    ensures forall e :: e in LeaveCallbacks(pending, p) ==> e.Left?
  {
    if pending != [] { CallbacksDoNotCount(pending[1..], p); }
  }

  lemma AnswerDoesNotCount(c: Config, w: World, s: int, command: Command)
    requires s in w.reg.byId
    ensures Net(Answer(c, w, s, command)) == 0
  {
    if s in w.players { CallbacksDoNotCount(w.players[s].pendingLeaves, s); }
    NoNet(Answer(c, w, s, command));
  }

  lemma UpdatesDoNotCount(c: Config, before: Table, w: World, p: int)
    ensures Net(ListUpdates(c, before, w, p)) == 0
  {
    NoNet(ListUpdates(c, before, w, p));
  }

  lemma LeaveDoesNotCount(w: World, s: int, p: int)
    requires s in w.reg.byId
    ensures Net(LeaveEvents(w, s, p)) == 0 && Net([]) == 0
  {
    NoNet(LeaveEvents(w, s, p));
  }

  lemma RequestNet(c: Config, w: World, s: int, command: Command, p: int)
    requires s in w.reg.byId
    ensures Net(RequestEvents(c, w, s, command, p))
         == (if DepartsArea(c, w, s, command) then Net(AreaLeaveEvents(c, w, s, p)) else 0)
            + Net(Relayed(c, w, Handled(c, w, s, command), s, command, p))
  {
    LeaveDoesNotCount(w, s, p);
    hide LeaveEvents, AreaLeaveEvents, Answer, Relayed, Handled, Departs, DepartsArea, ListUpdates, Tracked;
    var w' := Handled(c, w, s, command);
    var leave := if Departs(c, w, s, command) then LeaveEvents(w, s, p) else [];
    var area := if DepartsArea(c, w, s, command) then AreaLeaveEvents(c, w, s, p) else [];
    var answer := if p == s then Answer(c, w, s, command) else [];
    AnswerDoesNotCount(c, w, s, command);
    UpdatesDoNotCount(c, w.rooms, w', p);
    NetAppend(leave, area);
    NetAppend(leave + area, answer);
    NetAppend(leave + area + answer, Relayed(c, w, w', s, command, p));
    NetAppend(OwnEvents(c, w, s, command, p), if Tracked(command) then ListUpdates(c, w.rooms, w', p) else []);
  }

  lemma RequestCounts(c: Config, w: World, s: int, command: Command, p: int, area: int)
    requires c.fileTwo && Numbered(c) && s in w.reg.byId
    requires Watching(c, w, p, area) && Watching(c, Handled(c, w, s, command), p, area)
    ensures |LobbyMembers(Handled(c, w, s, command).reg, area)|
         == |LobbyMembers(w.reg, area)| + Net(RequestEvents(c, w, s, command, p))
  {
    var before := LobbyMembers(w.reg, area);
    RequestNet(c, w, s, command, p);
    HandledMembers(c, w, s, command, area);
    SetSteps(before, s);
    SetSteps(before - {s}, s);
    if p != s {
      AreaLeaveCounts(c, w, s, p, area);
      RelayedCounts(c, w, s, command, p, area);
    } else {
      NothingForOneself(c, w, s, command);
      assert s in before && s in LobbyMembers(Handled(c, w, s, command).reg, area);
    }
  }

  lemma NothingForOneself(c: Config, w: World, s: int, command: Command)
    requires s in w.reg.byId
    ensures Net(AreaLeaveEvents(c, w, s, s)) == 0 && Net(Relayed(c, w, Handled(c, w, s, command), s, command, s)) == 0
  {
    NoNet(AreaLeaveEvents(c, w, s, s));
    NoNet(Relayed(c, w, Handled(c, w, s, command), s, command, s));
  }

  lemma EndNet(c: Config, w: World, s: int, p: int)
    requires s in w.reg.byId
    ensures Net(EndEvents(c, w, s, p)) == Net(AreaLeaveEvents(c, w, s, p))
  {
    LeaveDoesNotCount(w, s, p);
    UpdatesDoNotCount(c, w.rooms, Forgotten(c, w, s), p);
    NetAppend(LeaveEvents(w, s, p), AreaLeaveEvents(c, w, s, p));
    NetAppend(LeaveEvents(w, s, p) + AreaLeaveEvents(c, w, s, p), ListUpdates(c, w.rooms, Forgotten(c, w, s), p));
  }

  lemma EndCounts(c: Config, w: World, s: int, p: int, area: int)
    requires c.fileTwo && Numbered(c) && s in w.reg.byId && p != s && Watching(c, w, p, area)
    ensures |LobbyMembers(Ended(c, w, s).reg, area)| == |LobbyMembers(w.reg, area)| + Net(EndEvents(c, w, s, p))
  {
    EndNet(c, w, s, p);
    AreaLeaveCounts(c, w, s, p, area);
    SetSteps(LobbyMembers(w.reg, area), s);
    assert LobbyMembers(Ended(c, w, s).reg, area) == LobbyMembers(w.reg, area) - {s};
  }

  // A login: the one step that can take a player out of its Area without a word.

  /** The members of the Area a login takes out of it when it adopts its handoff: itself, and whom it pushes out. */
  function Hushed(reg: Registry, h: Handoff, area: int): set<int> {
    if Adopts(reg, h) then LobbyMembers(reg, area) * ({h.sessionId} + Pushed(reg, h)) else {}
  }

  function SilentlyGone(c: Config, w: World, op: Op, area: int): set<int> {
    if op.Login? && op.handoff.Some? && op.accepted then
      Hushed(StaleEnded(c, Cleared(w, op.handoff.value), op.handoff.value, op.endpoint).reg, op.handoff.value, area)
    else {}
  }

  lemma SeatingMembers(reg: Registry, h: Handoff, endpoint: Endpoint, area: int)
    requires Sound(reg) && area >= 1
    ensures LobbyMembers(SeatedRegistry(reg, h, endpoint), area) == LobbyMembers(reg, area) - Hushed(reg, h, area)
  {
    SeatingPlaces(reg, h, endpoint);
    if Adopts(reg, h) { AdoptingPlaces(reg, h); }
  }

  lemma LoginNet(c: Config, w: World, h: Handoff, endpoint: Endpoint, profile: Payload, p: int)
    ensures var w1 := Cleared(w, h); var stale := Stale(w1.reg, h, endpoint);
            Net(LoginEvents(c, w, h, true, endpoint, profile, p))
            == if stale.Some? then Net(EndEvents(c, w1, stale.value, p)) else 0
  {
    var w1 := Cleared(w, h);
    var stale := Stale(w1.reg, h, endpoint);
    var ok: seq<Event> := if p == h.sessionId then [Result(0)] else [];
    var ended := if stale.Some? then EndEvents(c, w1, stale.value, p) else [];
    NoNet(ok);
    NetAppend(ok, ended);
    NetAppend(LoginAnswer(c, w1, h, endpoint, p),
        ListUpdates(c, w.rooms, LoggedIn(c, w, h, true, endpoint, profile), p));
    UpdatesDoNotCount(c, w.rooms, LoggedIn(c, w, h, true, endpoint, profile), p);
  }

  lemma LoginCounts(c: Config, w: World, h: Handoff, endpoint: Endpoint, profile: Payload, p: int, area: int)
    requires c.fileTwo && Numbered(c) && Sound(w.reg)
    requires Watching(c, w, p, area) && Watching(c, LoggedIn(c, w, h, true, endpoint, profile), p, area)
    ensures |LobbyMembers(LoggedIn(c, w, h, true, endpoint, profile).reg, area)|
         == |LobbyMembers(w.reg, area)| + Net(LoginEvents(c, w, h, true, endpoint, profile, p))
            - |SilentlyGone(c, w, Login(Some(h), true, endpoint, profile), area)|
  {
    var w1 := Cleared(w, h);
    var w2 := StaleEnded(c, w1, h, endpoint);
    var stale := Stale(w1.reg, h, endpoint);
    assert LobbyMembers(w1.reg, area) == LobbyMembers(w.reg, area);
    ClearingKeepsSound(w, h);
    LoginNet(c, w, h, endpoint, profile, p);
    if stale.Some? {
      StaleIsGone(c, w1, h, endpoint, profile);
      EndingKeepsSound(c, w1, stale.value);
      EndCounts(c, w1, stale.value, p, area);
    }
    SeatingMembers(w2.reg, h, endpoint, area);
  }

  lemma RefusedLoginCounts(c: Config, w: World, h: Handoff, endpoint: Endpoint, profile: Payload, p: int, area: int)
    ensures LobbyMembers(LoggedIn(c, w, h, false, endpoint, profile).reg, area) == LobbyMembers(w.reg, area)
    ensures Net(LoginEvents(c, w, h, false, endpoint, profile, p)) == 0
  {
    hide ListUpdates;
    var none: seq<Event> := [];
    NoNet(none);
    NetAppend(none, ListUpdates(c, w.rooms, LoggedIn(c, w, h, false, endpoint, profile), p));
    UpdatesDoNotCount(c, w.rooms, LoggedIn(c, w, h, false, endpoint, profile), p);
  }

  /**
    What the Area callbacks of one step tell a watching client is exactly how
    its Area's population changed, up to the members a login removes silently.
   */
  lemma StepCounts(c: Config, w: World, op: Op, p: int, area: int)
    requires c.fileTwo && Numbered(c) && Sound(w.reg)
    requires Watching(c, w, p, area) && Watching(c, Next(c, w, op), p, area)
    ensures |LobbyMembers(Next(c, w, op).reg, area)|
         == |LobbyMembers(w.reg, area)| + Net(Sent(c, w, op, p)) - |SilentlyGone(c, w, op, area)|
  {
    match op
    case Request(sessionId, endpoint, command) =>
      var actor := Actor(w.reg, sessionId, endpoint);
      if actor.Some? { RequestCounts(c, w, actor.value, command, p, area); }
    case Login(h, accepted, endpoint, profile) =>
      if h.Some? {
        if accepted {
          LoginCounts(c, w, h.value, endpoint, profile, p, area);
        } else {
          RefusedLoginCounts(c, w, h.value, endpoint, profile, p, area);
        }
      }
    case Timeout(sessionId, endpoint) =>
      var actor := Actor(w.reg, sessionId, endpoint);
      if actor.Some? { EndCounts(c, w, actor.value, p, area); }
  }

  // Whole runs.

  /** What a client shows that learned the Area's population at step `k` and has counted since. */
  function Shown(c: Config, ops: seq<Op>, k: nat, p: int, area: int): int
    requires k <= |ops|
  {
    if |ops| == k then |LobbyMembers(After(c, ops).reg, area)|
    else
      var n := |ops| - 1;
      Shown(c, ops[..n], k, p, area) + Net(Sent(c, After(c, ops[..n]), ops[n], p))
  }

  function SilentSince(c: Config, ops: seq<Op>, k: nat, area: int): nat
    requires k <= |ops|
  {
    if |ops| == k then 0
    else
      var n := |ops| - 1;
      SilentSince(c, ops[..n], k, area) + |SilentlyGone(c, After(c, ops[..n]), ops[n], area)|
  }

  ghost predicate WatchesFrom(c: Config, ops: seq<Op>, k: nat, p: int, area: int) {
    forall i :: k <= i <= |ops| ==> Watching(c, After(c, ops[..i]), p, area)
  }

  lemma PrefixWatches(c: Config, ops: seq<Op>, k: nat, p: int, area: int)
    requires k < |ops| && WatchesFrom(c, ops, k, p, area)
    ensures var n := |ops| - 1;
            WatchesFrom(c, ops[..n], k, p, area)
            && Watching(c, After(c, ops[..n]), p, area) && Watching(c, After(c, ops), p, area)
  {
    var n := |ops| - 1;
    assert ops[..|ops|] == ops;
    forall i | k <= i <= n ensures Watching(c, After(c, ops[..n][..i]), p, area) {
      assert ops[..n][..i] == ops[..i];
    }
  }

  /**
    Over every run in which the client stays reachable in the Area: what it
    shows is the population plus everybody a login took out silently, so it is
    right exactly when there was no such login.
   */
  lemma {:induction false} ShownIsThePopulation(c: Config, ops: seq<Op>, k: nat, p: int, area: int)
    requires c.fileTwo && Numbered(c) && k <= |ops| && WatchesFrom(c, ops, k, p, area)
    ensures Shown(c, ops, k, p, area) == |LobbyMembers(After(c, ops).reg, area)| + SilentSince(c, ops, k, area)
    ensures Shown(c, ops, k, p, area) == |LobbyMembers(After(c, ops).reg, area)| <==> SilentSince(c, ops, k, area) == 0
  {
    if k < |ops| {
      var n := |ops| - 1;
      PrefixWatches(c, ops, k, p, area);
      ShownIsThePopulation(c, ops[..n], k, p, area);
      RegistryStaysSound(c, ops[..n]);
      StepCounts(c, After(c, ops[..n]), ops[n], p, area);
    }
  }

  /** A console that bootstraps again and logs in under its old id leaves its Area that way, with a new handoff. */
  lemma NewHandoffIsSilent(c: Config, w: World, h: Handoff, endpoint: Endpoint, profile: Payload, area: int)
    requires Sound(w.reg) && h.sessionId in LobbyMembers(w.reg, area)
             && w.reg.byId[h.sessionId].handoffSerial != h.serial
    requires endpoint in w.reg.byEndpoint ==> w.reg.byEndpoint[endpoint] == h.sessionId
    ensures h.sessionId in SilentlyGone(c, w, Login(Some(h), true, endpoint, profile), area)
  {
    assert Stale(Cleared(w, h).reg, h, endpoint) == None;
  }

  // Capacity.

  /** Whom the capacity counts: everybody in an Area in File#2, the Area's own members in File#1. */
  function Crowd(c: Config, reg: Registry, area: int): set<int> {
    if c.fileTwo then AllInAreas(c, reg) else LobbyMembers(reg, area)
  }

  ghost predicate WithinCapacity(c: Config, w: World) {
    forall area :: area in c.areas ==> |Crowd(c, w.reg, area)| <= c.capacity
  }

  /** Nobody enters an Area, except possibly `s`, which enters `area`. */
  ghost predicate NobodyEnters(c: Config, before: Registry, after: Registry, s: int, area: int) {
    forall x :: x in after.byId && after.byId[x].lobbyId in c.areas ==>
      || (x in before.byId && after.byId[x].lobbyId == before.byId[x].lobbyId)
      || (x == s && after.byId[x].lobbyId == area)
  }

  lemma HandledEnters(c: Config, w: World, s: int, command: Command)
    requires Numbered(c) && s in w.reg.byId
    ensures NobodyEnters(c, w.reg, Handled(c, w, s, command).reg, s,
                         if command.JoinArea? && MayJoinArea(c, w, s, command.area) then command.area else 0)
  {
  }

  lemma EndEnters(c: Config, w: World, s: int)
    requires Numbered(c) && s in w.reg.byId
    ensures NobodyEnters(c, w.reg, Ended(c, w, s).reg, s, 0)
  {
  }

  lemma LoginEnters(c: Config, w: World, h: Handoff, accepted: bool, endpoint: Endpoint, profile: Payload)
    requires Numbered(c) && Sound(w.reg)
    ensures NobodyEnters(c, w.reg, LoggedIn(c, w, h, accepted, endpoint, profile).reg, 0, 0)
  {
    hide SeatedRegistry, Adopts, Superseded;
    var w1 := Cleared(w, h);
    ClearingKeepsSound(w, h);
    if Stale(w1.reg, h, endpoint).Some? {
      EndEnters(c, w1, Stale(w1.reg, h, endpoint).value);
      EndingKeepsSound(c, w1, Stale(w1.reg, h, endpoint).value);
    }
    SeatingEnters(c, StaleEnded(c, w1, h, endpoint).reg, h, endpoint);
  }

  lemma SeatingEnters(c: Config, reg: Registry, h: Handoff, endpoint: Endpoint)
    requires Numbered(c) && Sound(reg)
    ensures NobodyEnters(c, reg, SeatedRegistry(reg, h, endpoint), 0, 0)
  {
    SeatingPlaces(reg, h, endpoint);
    if Adopts(reg, h) { AdoptingPlaces(reg, h); }
  }

  lemma CrowdGrows(c: Config, before: Registry, after: Registry, s: int, entered: int, area: int)
    requires Numbered(c) && NobodyEnters(c, before, after, s, entered) && area in c.areas
    ensures |Crowd(c, after, area)|
         <= if entered in c.areas && (c.fileTwo || entered == area) then |Crowd(c, before, area) - {s}| + 1
            else |Crowd(c, before, area)|
  {
    var others := Crowd(c, before, area) - {s};
    var wanted := if entered in c.areas && (c.fileTwo || entered == area) then others + {s} else Crowd(c, before, area);
    forall x | x in Crowd(c, after, area) ensures x in wanted {
      assert x in after.byId && after.byId[x].lobbyId in c.areas;
    }
    SubsetCount(Crowd(c, after, area), wanted);
  }

  lemma StepKeepsCapacity(c: Config, w: World, op: Op)
    requires Numbered(c) && Sound(w.reg) && WithinCapacity(c, w)
    ensures WithinCapacity(c, Next(c, w, op))
  {
    var entrant, entered := 0, 0;
    match op {
      case Request(sessionId, endpoint, command) =>
        var actor := Actor(w.reg, sessionId, endpoint);
        if actor.Some? {
          HandledEnters(c, w, actor.value, command);
          entrant := actor.value;
          if command.JoinArea? && MayJoinArea(c, w, actor.value, command.area) { entered := command.area; }
        }
      case Login(h, accepted, endpoint, profile) =>
        if h.Some? { LoginEnters(c, w, h.value, accepted, endpoint, profile); }
      case Timeout(sessionId, endpoint) =>
        var actor := Actor(w.reg, sessionId, endpoint);
        if actor.Some? { EndEnters(c, w, actor.value); entrant := actor.value; }
    }
    forall area | area in c.areas ensures |Crowd(c, Next(c, w, op).reg, area)| <= c.capacity {
      CrowdGrows(c, w.reg, Next(c, w, op).reg, entrant, entered, area);
    }
  }

  /** In every reachable state: File#2 holds its server capacity, File#1 the capacity of each Area. */
  lemma {:induction false} CapacityIsNeverExceeded(c: Config, ops: seq<Op>)
    requires Numbered(c)
    ensures WithinCapacity(c, After(c, ops))
  {
    if ops != [] {
      CapacityIsNeverExceeded(c, ops[..|ops| - 1]);
      RegistryStaysSound(c, ops[..|ops| - 1]);
      StepKeepsCapacity(c, After(c, ops[..|ops| - 1]), ops[|ops| - 1]);
    }
  }
}
