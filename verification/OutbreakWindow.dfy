/**
  The scenario window: between status 1 and the lobby status no lobby callback
  reaches a player, and the departures it misses meanwhile are delivered, once
  each and in order, when it is back.
 */
module OutbreakWindow {
  import opened Snap
  import opened Sessions
  import opened Login
  import opened Rooms
  import opened Outbreak
  import opened OutbreakRooms

  /** One player's history: its own transitions and what it was sent. */
  datatype Mark = Begin | End | Enter | Exit | Got(e: Event)

  datatype Phase = Away | Lobby | Scenario

  function PhaseOf(w: World, p: int): Phase {
    if p !in w.players then Away else if w.players[p].inScenario then Scenario else Lobby
  }

  function Turned(phase: Phase, m: Mark): Phase {
    match m
    case Begin => Lobby
    case End => Away
    case Enter => if phase == Away then Away else Scenario
    case Exit => if phase == Away then Away else Lobby
    case Got(_) => phase
  }

  /** The transitions a step makes for `p`: login, logout or end, status 1, lobby status. */
  function Marks(c: Config, w: World, op: Op, p: int): seq<Mark> {
    match op
    case Request(sessionId, endpoint, command) =>
      if Actor(w.reg, sessionId, endpoint) != Some(p) then []
      else if command.Logout? then [End]
      else if command.ChangeStatus? && command.status == STATUS_IN_SCENARIO then [Enter]
      else if command.ChangeStatus? && command.status == c.lobbyStatus then [Exit]
      else []
    case Login(h, accepted, endpoint, _) =>
      if h == None || !accepted then []
      else if p == h.value.sessionId then [Begin]
      else if Stale(Cleared(w, h.value).reg, h.value, endpoint) == Some(p) then [End]
      else []
    case Timeout(sessionId, endpoint) => if Actor(w.reg, sessionId, endpoint) == Some(p) then [End] else []
  }

  function Gots(events: seq<Event>): (marks: seq<Mark>)
    ensures |marks| == |events| && forall i :: 0 <= i < |events| ==> marks[i] == Got(events[i])
  {
    seq(|events|, i requires 0 <= i < |events| => Got(events[i]))
  }

  function Trace(c: Config, ops: seq<Op>, p: int): seq<Mark> {
    if ops == [] then []
    else
      var n := |ops| - 1;
      var w := After(c, ops[..n]);
      Trace(c, ops[..n], p) + Marks(c, w, ops[n], p) + Gots(Sent(c, w, ops[n], p))
  }

  function PhaseAfter(trace: seq<Mark>): Phase {
    if trace == [] then Away else Turned(PhaseAfter(trace[..|trace| - 1]), trace[|trace| - 1])
  }

  /** Every lobby callback in the history comes while the player is in the lobby. */
  ghost predicate InLobbyOnly(trace: seq<Mark>) {
    forall i :: 0 <= i < |trace| && trace[i].Got? && IsCallback(trace[i].e) ==> PhaseAfter(trace[..i]) == Lobby
  }

  // One step.

  lemma LeavingKeepsPhases(w: World, s: int, p: int)
    requires s in w.reg.byId
    ensures PhaseOf(LeftRoom(w, s), p) == PhaseOf(w, p)
    ensures s !in Companions(w, s)
  {
  }

  lemma HandledPhase(c: Config, w: World, s: int, command: Command, p: int)
    requires s in w.reg.byId
    ensures var phase := PhaseOf(w, p);
            PhaseOf(Handled(c, w, s, command), p)
            == if p != s || phase == Away then phase
               else if command.Logout? then Away
               else if command.ChangeStatus? && command.status == STATUS_IN_SCENARIO then Scenario
               else if command.ChangeStatus? && command.status == c.lobbyStatus then Lobby
               else phase
  {
    LeavingKeepsPhases(w, s, p);
  }

  lemma LoginPhase(c: Config, w: World, h: Handoff, accepted: bool, endpoint: Endpoint, profile: Payload, p: int)
    ensures PhaseOf(LoggedIn(c, w, h, accepted, endpoint, profile), p)
         == if !accepted then PhaseOf(w, p)
            else if p == h.sessionId then Lobby
            else if Stale(Cleared(w, h).reg, h, endpoint) == Some(p) then Away
            else PhaseOf(w, p)
  {
    var w1 := Cleared(w, h);
    if Stale(w1.reg, h, endpoint).Some? { LeavingKeepsPhases(w1, Stale(w1.reg, h, endpoint).value, p); }
  }

  /** What a step's marks say is what its state says. */
  lemma MarksAreThePhase(c: Config, w: World, op: Op, p: int)
    ensures |Marks(c, w, op, p)| <= 1
    ensures PhaseOf(Next(c, w, op), p)
         == if Marks(c, w, op, p) == [] then PhaseOf(w, p) else Turned(PhaseOf(w, p), Marks(c, w, op, p)[0])
  {
    match op
    case Request(sessionId, endpoint, command) =>
      var actor := Actor(w.reg, sessionId, endpoint);
      if actor.Some? { HandledPhase(c, w, actor.value, command, p); }
    case Login(h, accepted, endpoint, profile) =>
      if h.Some? { LoginPhase(c, w, h.value, accepted, endpoint, profile, p); }
    case Timeout(sessionId, endpoint) =>
      var actor := Actor(w.reg, sessionId, endpoint);
      if actor.Some? { LeavingKeepsPhases(w, actor.value, p); }
  }

  ghost predicate HasCallback(events: seq<Event>) {
    exists e :: e in events && IsCallback(e)
  }

  lemma UpdatesReachLobbyOnly(c: Config, before: Table, w: World, p: int)
    ensures ListUpdates(c, before, w, p) != [] ==> PhaseOf(w, p) == Lobby
  {
  }

  lemma RequestReachesLobbyOnly(c: Config, w: World, s: int, command: Command, p: int)
    requires s in w.reg.byId && HasCallback(RequestEvents(c, w, s, command, p))
    ensures PhaseOf(Handled(c, w, s, command), p) == Lobby
  {
    UpdatesReachLobbyOnly(c, w.rooms, Handled(c, w, s, command), p);
    hide ListUpdates;
    HandledPhase(c, w, s, command, p);
    LeavingKeepsPhases(w, s, p);
  }

  lemma EndReachesLobbyOnly(c: Config, w: World, s: int, p: int)
    requires s in w.reg.byId && HasCallback(EndEvents(c, w, s, p))
    ensures PhaseOf(Ended(c, w, s), p) == Lobby && PhaseOf(w, p) == Lobby && p != s
  {
    LeavingKeepsPhases(w, s, p);
  }

  lemma LoginReachesLobbyOnly(c: Config, w: World, h: Handoff, accepted: bool, endpoint: Endpoint, profile: Payload,
      p: int)
    requires HasCallback(LoginEvents(c, w, h, accepted, endpoint, profile, p))
    ensures PhaseOf(LoggedIn(c, w, h, accepted, endpoint, profile), p) == Lobby
  {
    LoginPhase(c, w, h, accepted, endpoint, profile, p);
    var w1 := Cleared(w, h);
    var stale := Stale(w1.reg, h, endpoint);
    if accepted && stale.Some? && HasCallback(EndEvents(c, w1, stale.value, p)) {
      EndReachesLobbyOnly(c, w1, stale.value, p);
    }
  }

  /** Whatever the step, a lobby callback goes only to a player who is in the lobby when it is sent. */
  lemma CallbacksReachLobbyOnly(c: Config, w: World, op: Op, p: int)
    requires HasCallback(Sent(c, w, op, p))
    ensures PhaseOf(Next(c, w, op), p) == Lobby
  {
    match op
    case Request(sessionId, endpoint, command) =>
      RequestReachesLobbyOnly(c, w, Actor(w.reg, sessionId, endpoint).value, command, p);
    case Login(h, accepted, endpoint, profile) =>
      LoginReachesLobbyOnly(c, w, h.value, accepted, endpoint, profile, p);
    case Timeout(sessionId, endpoint) =>
      EndReachesLobbyOnly(c, w, Actor(w.reg, sessionId, endpoint).value, p);
  }

  // Whole runs.

  lemma {:induction false} GotsKeepPhase(trace: seq<Mark>, events: seq<Event>)
    ensures PhaseAfter(trace + Gots(events)) == PhaseAfter(trace)
    decreases |events|
  {
    if events == [] {
      assert trace + Gots(events) == trace;
    } else {
      var n := |events| - 1;
      GotsKeepPhase(trace, events[..n]);
      assert (trace + Gots(events))[..|trace| + n] == trace + Gots(events[..n]);
    }
  }

  lemma MarkTurnsPhase(trace: seq<Mark>, m: Mark)
    ensures PhaseAfter(trace + [m]) == Turned(PhaseAfter(trace), m)
  {
    assert (trace + [m])[..|trace|] == trace;
  }

  lemma StepTrace(trace: seq<Mark>, marks: seq<Mark>, events: seq<Event>)
    requires InLobbyOnly(trace) && |marks| <= 1 && forall m :: m in marks ==> !m.Got?
    requires HasCallback(events) ==> PhaseAfter(trace + marks) == Lobby
    ensures InLobbyOnly(trace + marks + Gots(events))
    ensures PhaseAfter(trace + marks + Gots(events)) == PhaseAfter(trace + marks)
  {
    var all := trace + marks + Gots(events);
    GotsKeepPhase(trace + marks, events);
    assert forall i :: |trace| <= i < |trace| + |marks| ==> all[i] in marks;
    forall i | 0 <= i < |all| && all[i].Got? && IsCallback(all[i].e) ensures PhaseAfter(all[..i]) == Lobby {
      if i < |trace| {
        assert all[..i] == trace[..i] && all[i] == trace[i];
      } else {
        var k := i - |trace| - |marks|;
        assert all[i] == Got(events[k]) && events[k] in events;
        assert all[..i] == trace + marks + Gots(events[..k]);
        GotsKeepPhase(trace + marks, events[..k]);
      }
    }
  }

  /**
    Scenario-window safety, over every run and for every player: no lobby
    callback is sent to it outside the lobby, so none between its status 1 and
    its lobby status, and none before it logs in or after it is gone.
   */
  lemma {:induction false} NoCallbackInTheWindow(c: Config, ops: seq<Op>, p: int)
    ensures InLobbyOnly(Trace(c, ops, p))
    ensures PhaseAfter(Trace(c, ops, p)) == PhaseOf(After(c, ops), p)
  {
    if ops != [] {
      var n := |ops| - 1;
      NoCallbackInTheWindow(c, ops[..n], p);
      StepInTheWindow(c, After(c, ops[..n]), ops[n], p, Trace(c, ops[..n], p));
    }
  }

  lemma StepInTheWindow(c: Config, w: World, op: Op, p: int, trace: seq<Mark>)
    requires InLobbyOnly(trace) && PhaseAfter(trace) == PhaseOf(w, p)
    ensures var trace' := trace + Marks(c, w, op, p) + Gots(Sent(c, w, op, p));
            InLobbyOnly(trace') && PhaseAfter(trace') == PhaseOf(Next(c, w, op), p)
  {
    hide Next, Sent, PhaseOf, InLobbyOnly;
    var marks := Marks(c, w, op, p);
    MarksAreThePhase(c, w, op, p);
    assert PhaseAfter(trace + marks) == PhaseOf(Next(c, w, op), p) by {
      if marks == [] {
        assert trace + marks == trace;
      } else {
        MarkTurnsPhase(trace, marks[0]);
        assert marks == [marks[0]];
      }
    }
    if HasCallback(Sent(c, w, op, p)) { CallbacksReachLobbyOnly(c, w, op, p); }
    StepTrace(trace, marks, Sent(c, w, op, p));
  }

  // Departures.

  function Lefts(events: seq<Event>): seq<int> {
    if events == [] then []
    else Lefts(events[..|events| - 1]) + if events[|events| - 1].Left? then [events[|events| - 1].who] else []
  }

  lemma {:induction false} LeftsAppend(a: seq<Event>, b: seq<Event>)
    ensures Lefts(a + b) == Lefts(a) + Lefts(b)
    decreases |b|
  {
    if b == [] {
      assert a + b == a;
    } else {
      LeftsAppend(a, b[..|b| - 1]);
      assert (a + b)[..|a + b| - 1] == a + b[..|b| - 1];
    }
  }

  lemma {:induction false} NoLefts(events: seq<Event>)
    requires forall e :: e in events ==> !e.Left?
    ensures Lefts(events) == []
  {
    if events != [] { NoLefts(events[..|events| - 1]); }
  }

  function Pending(w: World, p: int): seq<int> {
    if p in w.players then w.players[p].pendingLeaves else []
  }

  function OwedBy(w: World, s: int, p: int): seq<int>
    requires s in w.reg.byId
  {
    if p in Companions(w, s) && p in w.players then [s] else []
  }

  /** The departure a step owes to `p`, whether it can be told now or not. */
  function Owed(c: Config, w: World, op: Op, p: int): seq<int> {
    match op
    case Request(sessionId, endpoint, command) =>
      var actor := Actor(w.reg, sessionId, endpoint);
      if actor.Some? && Departs(c, w, actor.value, command) then OwedBy(w, actor.value, p) else []
    case Login(h, accepted, endpoint, _) =>
      if h.Some? && accepted && Stale(Cleared(w, h.value).reg, h.value, endpoint).Some?
      then OwedBy(Cleared(w, h.value), Stale(Cleared(w, h.value).reg, h.value, endpoint).value, p) else []
    case Timeout(sessionId, endpoint) =>
      var actor := Actor(w.reg, sessionId, endpoint);
      if actor.Some? then OwedBy(w, actor.value, p) else []
  }

  /** Only a player in a scenario is owed anything, and never its own departure. */
  predicate SettledAt(w: World, p: int) {
    p in w.players ==>
      && (!w.players[p].inScenario ==> w.players[p].pendingLeaves == [])
      && p !in w.players[p].pendingLeaves
  }

  lemma LeavingSettles(w: World, s: int, p: int)
    requires s in w.reg.byId && SettledAt(w, p)
    ensures SettledAt(LeftRoom(w, s), p)
    ensures Lefts(LeaveEvents(w, s, p)) + Pending(LeftRoom(w, s), p) == Pending(w, p) + OwedBy(w, s, p)
  {
    LeavingKeepsPhases(w, s, p);
    var events := LeaveEvents(w, s, p);
    if events != [] {
      assert events[..0] == [];
      assert Lefts(events) == [s];
    }
  }

  lemma {:induction false} DeliveredInOrder(pending: seq<int>, p: int)
    requires p !in pending
    ensures Lefts(LeaveCallbacks(pending, p)) == pending
  {
    if pending != [] {
      var first: seq<Event> := [Left(pending[0])];
      DeliveredInOrder(pending[1..], p);
      LeftsAppend(first, LeaveCallbacks(pending[1..], p));
      assert first[..0] == [];
      assert Lefts(first) == [pending[0]];
    }
  }

  lemma AnswerDelivers(c: Config, w: World, s: int, command: Command)
    requires s in w.reg.byId && SettledAt(w, s)
    ensures Lefts(Answer(c, w, s, command))
         == if command.ChangeStatus? && s in w.players && command.status == c.lobbyStatus
             && command.status != STATUS_IN_SCENARIO
            then Pending(w, s) else []
  {
    if command.ChangeStatus? && s in w.players && command.status == c.lobbyStatus
        && command.status != STATUS_IN_SCENARIO {
      var ok: seq<Event> := [Result(0)];
      LeftsAppend(ok, LeaveCallbacks(w.players[s].pendingLeaves, s));
      DeliveredInOrder(w.players[s].pendingLeaves, s);
      NoLefts(ok);
    } else {
      NoLefts(Answer(c, w, s, command));
    }
  }

  predicate BackToLobby(c: Config, command: Command) {
    command.ChangeStatus? && command.status == c.lobbyStatus && command.status != STATUS_IN_SCENARIO
  }

  lemma RelayedHasNoLefts(c: Config, w: World, w': World, s: int, command: Command, p: int)
    requires s in w.reg.byId
    ensures Lefts(Relayed(c, w, w', s, command, p)) == []
  {
    NoLefts(Relayed(c, w, w', s, command, p));
  }

  lemma UpdatesHaveNoLefts(c: Config, before: Table, w: World, p: int)
    ensures Lefts(ListUpdates(c, before, w, p)) == []
  {
    NoLefts(ListUpdates(c, before, w, p));
  }

  lemma AreaLeaveHasNoLefts(c: Config, w: World, s: int, p: int)
    requires s in w.reg.byId
    ensures Lefts(AreaLeaveEvents(c, w, s, p)) == [] && Lefts([]) == []
  {
    NoLefts(AreaLeaveEvents(c, w, s, p));
  }

  lemma LeftsOfFour(a: seq<Event>, b: seq<Event>, d: seq<Event>, e: seq<Event>)
    ensures Lefts(a + b + d + e) == Lefts(a) + Lefts(b) + Lefts(d) + Lefts(e)
  {
    LeftsAppend(a + b + d, e);
    LeftsAppend(a + b, d);
    LeftsAppend(a, b);
  }

  lemma OwnLefts(c: Config, w: World, s: int, command: Command, p: int)
    requires s in w.reg.byId
    ensures Lefts(OwnEvents(c, w, s, command, p))
         == (if Departs(c, w, s, command) then Lefts(LeaveEvents(w, s, p)) else [])
            + if p == s then Lefts(Answer(c, w, s, command)) else []
  {
    hide LeaveEvents, AreaLeaveEvents, Answer, Relayed, Handled, Departs, DepartsArea;
    var leave := if Departs(c, w, s, command) then LeaveEvents(w, s, p) else [];
    var area := if DepartsArea(c, w, s, command) then AreaLeaveEvents(c, w, s, p) else [];
    var answer := if p == s then Answer(c, w, s, command) else [];
    LeftsOfFour(leave, area, answer, Relayed(c, w, Handled(c, w, s, command), s, command, p));
    AreaLeaveHasNoLefts(c, w, s, p);
    RelayedHasNoLefts(c, w, Handled(c, w, s, command), s, command, p);
  }

  lemma RequestLefts(c: Config, w: World, s: int, command: Command, p: int)
    requires s in w.reg.byId
    ensures Lefts(RequestEvents(c, w, s, command, p)) == Lefts(OwnEvents(c, w, s, command, p))
  {
    var w' := Handled(c, w, s, command);
    LeftsAppend(OwnEvents(c, w, s, command, p), if Tracked(command) then ListUpdates(c, w.rooms, w', p) else []);
    UpdatesHaveNoLefts(c, w.rooms, w', p);
  }

  lemma HandledPending(c: Config, w: World, s: int, command: Command, p: int)
    requires s in w.reg.byId && SettledAt(w, p) && p in w.players && p in Handled(c, w, s, command).players
    ensures SettledAt(Handled(c, w, s, command), p)
    ensures Pending(Handled(c, w, s, command), p)
         == if p == s && BackToLobby(c, command) then []
            else if Departs(c, w, s, command) then Pending(LeftRoom(w, s), p)
            else Pending(w, p)
  {
    LeavingSettles(w, s, p);
  }

  /** One request, for a player that it does not log out. */
  lemma RequestSettles(c: Config, w: World, s: int, command: Command, p: int)
    requires s in w.reg.byId && SettledAt(w, p) && p in w.players && p in Handled(c, w, s, command).players
    ensures SettledAt(Handled(c, w, s, command), p)
    ensures Lefts(RequestEvents(c, w, s, command, p)) + Pending(Handled(c, w, s, command), p)
         == Pending(w, p) + if Departs(c, w, s, command) then OwedBy(w, s, p) else []
  {
    hide *;
    HandledPending(c, w, s, command, p);
    RequestLefts(c, w, s, command, p);
    OwnLefts(c, w, s, command, p);
    if p == s { OwnRequestSettles(c, w, s, command); } else { LeavingSettles(w, s, p); }
  }

  /** The sender itself is told of no departure of its own, and gets what it was owed with the lobby status. */
  lemma OwnRequestSettles(c: Config, w: World, s: int, command: Command)
    requires s in w.reg.byId && SettledAt(w, s) && s in w.players
    ensures LeaveEvents(w, s, s) == [] && OwedBy(w, s, s) == [] && Lefts([]) == []
    ensures Pending(LeftRoom(w, s), s) == Pending(w, s)
    ensures Lefts(Answer(c, w, s, command)) == if BackToLobby(c, command) then Pending(w, s) else []
    ensures BackToLobby(c, command) ==> !Departs(c, w, s, command)
  {
    AnswerDelivers(c, w, s, command);
    LeavingSettles(w, s, s);
  }

  lemma EndLefts(c: Config, w: World, s: int, p: int)
    requires s in w.reg.byId
    ensures Lefts(EndEvents(c, w, s, p)) == Lefts(LeaveEvents(w, s, p))
  {
    LeftsAppend(LeaveEvents(w, s, p) + AreaLeaveEvents(c, w, s, p), ListUpdates(c, w.rooms, Forgotten(c, w, s), p));
    LeftsAppend(LeaveEvents(w, s, p), AreaLeaveEvents(c, w, s, p));
    AreaLeaveHasNoLefts(c, w, s, p);
    UpdatesHaveNoLefts(c, w.rooms, Forgotten(c, w, s), p);
  }

  lemma EndSettles(c: Config, w: World, s: int, p: int)
    requires s in w.reg.byId && SettledAt(w, p) && p != s
    ensures SettledAt(Ended(c, w, s), p)
    ensures Lefts(EndEvents(c, w, s, p)) + Pending(Ended(c, w, s), p) == Pending(w, p) + OwedBy(w, s, p)
  {
    LeavingSettles(w, s, p);
    EndLefts(c, w, s, p);
  }

  lemma LoginPending(c: Config, w: World, h: Handoff, accepted: bool, endpoint: Endpoint, profile: Payload, p: int)
    requires p != h.sessionId
    ensures var stale := Stale(Cleared(w, h).reg, h, endpoint);
            var w' := LoggedIn(c, w, h, accepted, endpoint, profile);
            var w2 := if accepted && stale.Some? then Ended(c, Cleared(w, h), stale.value) else w;
            && Pending(w', p) == Pending(w2, p)
            && (SettledAt(w2, p) ==> SettledAt(w', p))
            && (SettledAt(w, p) ==> SettledAt(Cleared(w, h), p)) && Pending(Cleared(w, h), p) == Pending(w, p)
  {
  }

  lemma LoginSettles(c: Config, w: World, h: Handoff, accepted: bool, endpoint: Endpoint, profile: Payload, p: int)
    requires SettledAt(w, p) && p != h.sessionId
    requires accepted ==> Stale(Cleared(w, h).reg, h, endpoint) != Some(p)
    ensures SettledAt(LoggedIn(c, w, h, accepted, endpoint, profile), p)
    ensures Lefts(LoginEvents(c, w, h, accepted, endpoint, profile, p))
          + Pending(LoggedIn(c, w, h, accepted, endpoint, profile), p)
         == Pending(w, p) + Owed(c, w, Login(Some(h), accepted, endpoint, profile), p)
  {
    var stale := Stale(Cleared(w, h).reg, h, endpoint);
    LoginPending(c, w, h, accepted, endpoint, profile, p);
    LoginLefts(c, w, h, accepted, endpoint, profile, p);
    if accepted && stale.Some? { EndSettles(c, Cleared(w, h), stale.value, p); }
  }

  lemma LoginLefts(c: Config, w: World, h: Handoff, accepted: bool, endpoint: Endpoint, profile: Payload, p: int)
    ensures Lefts(LoginEvents(c, w, h, accepted, endpoint, profile, p))
         == if accepted && Stale(Cleared(w, h).reg, h, endpoint).Some?
            then Lefts(EndEvents(c, Cleared(w, h), Stale(Cleared(w, h).reg, h, endpoint).value, p)) else []
  {
    var answer := if accepted then LoginAnswer(c, Cleared(w, h), h, endpoint, p) else [];
    LeftsAppend(answer, ListUpdates(c, w.rooms, LoggedIn(c, w, h, accepted, endpoint, profile), p));
    UpdatesHaveNoLefts(c, w.rooms, LoggedIn(c, w, h, accepted, endpoint, profile), p);
    AnswerLefts(c, Cleared(w, h), h, endpoint, p);
  }

  lemma AnswerLefts(c: Config, w1: World, h: Handoff, endpoint: Endpoint, p: int)
    ensures Lefts(LoginAnswer(c, w1, h, endpoint, p))
         == if Stale(w1.reg, h, endpoint).Some? then Lefts(EndEvents(c, w1, Stale(w1.reg, h, endpoint).value, p))
             else []
  {
    var ok: seq<Event> := if p == h.sessionId then [Result(0)] else [];
    NoLefts(ok);
    if Stale(w1.reg, h, endpoint).Some? {
      LeftsAppend(ok, EndEvents(c, w1, Stale(w1.reg, h, endpoint).value, p));
    } else {
      assert LoginAnswer(c, w1, h, endpoint, p) == ok;
    }
  }

  // The account of one player over a run, from its latest login on.

  predicate Restarts(c: Config, w: World, op: Op, p: int) {
    Begin in Marks(c, w, op, p) || End in Marks(c, w, op, p)
  }

  function Delivered(c: Config, ops: seq<Op>, p: int): seq<int> {
    if ops == [] then []
    else
      var n := |ops| - 1;
      var w := After(c, ops[..n]);
      if Restarts(c, w, ops[n], p) then [] else Delivered(c, ops[..n], p) + Lefts(Sent(c, w, ops[n], p))
  }

  function Departures(c: Config, ops: seq<Op>, p: int): seq<int> {
    if ops == [] then []
    else
      var n := |ops| - 1;
      var w := After(c, ops[..n]);
      if Restarts(c, w, ops[n], p) then [] else Departures(c, ops[..n], p) + Owed(c, w, ops[n], p)
  }

  lemma StepSettles(c: Config, w: World, op: Op, p: int)
    requires SettledAt(w, p) && p in w.players && !Restarts(c, w, op, p)
    ensures p in Next(c, w, op).players && SettledAt(Next(c, w, op), p)
    ensures Lefts(Sent(c, w, op, p)) + Pending(Next(c, w, op), p) == Pending(w, p) + Owed(c, w, op, p)
  {
    MarksAreThePhase(c, w, op, p);
    match op
    case Request(sessionId, endpoint, command) =>
      var actor := Actor(w.reg, sessionId, endpoint);
      if actor.Some? { RequestSettles(c, w, actor.value, command, p); }
    case Login(h, accepted, endpoint, profile) =>
      if h.Some? {
        if p == h.value.sessionId {
          assert !accepted;
          LoginLefts(c, w, h.value, accepted, endpoint, profile, p);
        } else {
          LoginSettles(c, w, h.value, accepted, endpoint, profile, p);
        }
      }
    case Timeout(sessionId, endpoint) =>
      var actor := Actor(w.reg, sessionId, endpoint);
      if actor.Some? { EndSettles(c, w, actor.value, p); }
  }

  lemma RestartSettles(c: Config, w: World, op: Op, p: int)
    requires Restarts(c, w, op, p)
    ensures p in Next(c, w, op).players ==> Pending(Next(c, w, op), p) == [] && SettledAt(Next(c, w, op), p)
  {
    MarksAreThePhase(c, w, op, p);
  }

  lemma AbsentStaysAbsent(c: Config, w: World, op: Op, p: int)
    requires p !in w.players && !Restarts(c, w, op, p)
    ensures p !in Next(c, w, op).players
  {
    MarksAreThePhase(c, w, op, p);
  }

  /**
    Every departure a logged-in player is owed reaches it once and in order:
    those delivered since its login, followed by those waiting for its lobby
    status, are the departures since its login, and in the lobby none waits.
   */
  lemma {:induction false} DeparturesReachEveryone(c: Config, ops: seq<Op>, p: int)
    ensures SettledAt(After(c, ops), p)
    ensures p in After(c, ops).players ==> Delivered(c, ops, p) + Pending(After(c, ops), p) == Departures(c, ops, p)
    ensures Reachable(After(c, ops), p) ==> Delivered(c, ops, p) == Departures(c, ops, p)
  {
    if ops != [] {
      var n := |ops| - 1;
      var w := After(c, ops[..n]);
      DeparturesReachEveryone(c, ops[..n], p);
      if Restarts(c, w, ops[n], p) {
        RestartSettles(c, w, ops[n], p);
      } else if p in w.players {
        StepSettles(c, w, ops[n], p);
        Chain(Delivered(c, ops[..n], p), Lefts(Sent(c, w, ops[n], p)), Pending(After(c, ops), p), Pending(w, p),
              Owed(c, w, ops[n], p));
      } else {
        AbsentStaysAbsent(c, w, ops[n], p);
      }
    }
  }

  lemma Chain(a: seq<int>, b: seq<int>, d: seq<int>, e: seq<int>, f: seq<int>)
    requires b + d == e + f
    ensures a + b + d == a + e + f
  {
    assert a + b + d == a + (b + d);
    assert a + e + f == a + (e + f);
  }

  // What is owed is what happens in the room.

  predicate Roommates(w: World, s: int, p: int) {
    s != p && s in w.reg.byId && p in w.reg.byId && w.reg.byId[p].roomId > 0
        && w.reg.byId[s].roomId == w.reg.byId[p].roomId
  }

  predicate StillThere(w: World, w': World, p: int) {
    p in w.reg.byId && p in w'.reg.byId && w'.reg.byId[p].roomId == w.reg.byId[p].roomId
  }

  /**
    The two ways out of a room that the others are not told of: the player's own new
    login, or being superseded by one.
   */
  predicate Silent(c: Config, w: World, op: Op, s: int) {
    && op.Login? && op.handoff.Some?
    && (op.handoff.value.sessionId == s || OrphaningLogin(c, w, op))
  }

  lemma CompanionsAreRoommates(w: World, s: int, p: int)
    requires Good(w) && s in w.reg.byId && p in w.reg.byId
    ensures p in Companions(w, s) <==> Roommates(w, s, p)
  {
    if w.reg.byId[s].roomId > 0 { assert Holds(w, w.reg.byId[s].roomId, s); }
  }

  lemma HandledRooms(c: Config, w: World, s: int, command: Command, x: int)
    requires Good(w) && s in w.reg.byId && x in w.reg.byId
    ensures var w' := Handled(c, w, s, command);
            && x in w'.reg.byId
            && (x != s || !Departs(c, w, s, command) ==> w'.reg.byId[x].roomId == w.reg.byId[x].roomId)
            && (x == s && Departs(c, w, s, command) && w.reg.byId[s].roomId > 0 ==>
                  w'.reg.byId[s].roomId != w.reg.byId[s].roomId)
  {
    if w.reg.byId[s].roomId > 0 { assert Holds(w, w.reg.byId[s].roomId, s); }
  }

  /**
    For a tracked player that stays in its room, the departures it is owed are
    exactly the roommates it has no more, apart from the silent ones.
   */
  lemma OwedAreDepartures(c: Config, w: World, op: Op, p: int, s: int)
    requires Good(w) && p in w.players && Roommates(w, s, p) && StillThere(w, Next(c, w, op), p)
    requires !Silent(c, w, op, s)
    ensures s in Owed(c, w, op, p) <==> !(s in Next(c, w, op).reg.byId && Roommates(Next(c, w, op), s, p))
  {
    match op
    case Request(sessionId, endpoint, command) =>
      var actor := Actor(w.reg, sessionId, endpoint);
      if actor.Some? {
        CompanionsAreRoommates(w, actor.value, p);
        HandledRooms(c, w, actor.value, command, s);
        HandledRooms(c, w, actor.value, command, p);
      }
    case Login(h, accepted, endpoint, profile) =>
      if h.Some? { LoginOwes(c, w, h.value, accepted, endpoint, profile, p, s); }
    case Timeout(sessionId, endpoint) =>
      var actor := Actor(w.reg, sessionId, endpoint);
      if actor.Some? { CompanionsAreRoommates(w, actor.value, p); }
  }

  /** `x` is where it was. */
  predicate Unmoved(w: World, w': World, x: int) {
    x in w.reg.byId && x in w'.reg.byId && w'.reg.byId[x].roomId == w.reg.byId[x].roomId
  }

  lemma EndingMoves(c: Config, w: World, s: int, x: int)
    requires Good(w) && s in w.reg.byId && x in w.reg.byId
    ensures if x == s then x !in Ended(c, w, s).reg.byId else Unmoved(w, Ended(c, w, s), x)
  {
  }

  lemma SeatingMoves(w: World, h: Handoff, endpoint: Endpoint, profile: Payload, x: int)
    requires Good(w) && x != h.sessionId
    ensures var w' := Seated(w, h, endpoint, profile);
            && (x !in w.reg.byId ==> x !in w'.reg.byId)
            && (x in w.reg.byId && w.reg.byId[x].roomId > 0 && !Orphans(w, h) ==> Unmoved(w, w', x))
  {
    SeatingPlaces(w.reg, h, endpoint);
    if Adopts(w.reg, h) { AdoptingPlaces(w.reg, h); }
  }

  lemma LoginMoves(c: Config, w: World, h: Handoff, endpoint: Endpoint, profile: Payload, x: int)
    requires Good(w) && x in w.reg.byId && x != h.sessionId
    ensures var w1 := Cleared(w, h); var w2 := StaleEnded(c, w1, h, endpoint);
            var w' := Seated(w2, h, endpoint, profile);
            && Unmoved(w, w1, x)
            && (Stale(w1.reg, h, endpoint) == Some(x) ==> x !in w2.reg.byId && x !in w'.reg.byId)
            && (Stale(w1.reg, h, endpoint) != Some(x) ==> Unmoved(w, w2, x))
            && (x in w2.reg.byId && w2.reg.byId[x].roomId > 0 && !Orphans(w2, h) ==> Unmoved(w, w', x))
  {
    ClearingKeepsGood(c, w, h, endpoint);
    var w1 := Cleared(w, h);
    assert Unmoved(w, w1, x);
    if Stale(w1.reg, h, endpoint).Some? { EndingMoves(c, w1, Stale(w1.reg, h, endpoint).value, x); }
    SeatingMoves(StaleEnded(c, w1, h, endpoint), h, endpoint, profile, x);
  }

  lemma LoginOwes(c: Config, w: World, h: Handoff, accepted: bool, endpoint: Endpoint, profile: Payload, p: int, s: int)
    requires Good(w) && p in w.players && Roommates(w, s, p)
    requires StillThere(w, LoggedIn(c, w, h, accepted, endpoint, profile), p)
    requires !Silent(c, w, Login(Some(h), accepted, endpoint, profile), s)
    ensures s in Owed(c, w, Login(Some(h), accepted, endpoint, profile), p)
            <==> !(s in LoggedIn(c, w, h, accepted, endpoint, profile).reg.byId
                   && Roommates(LoggedIn(c, w, h, accepted, endpoint, profile), s, p))
  {
    ClearingKeepsGood(c, w, h, endpoint);
    if p == h.sessionId {
      RoomAfterLogin(c, w, h, accepted, endpoint, profile);
    } else {
      LoginMoves(c, w, h, endpoint, profile, s);
      LoginMoves(c, w, h, endpoint, profile, p);
      var w1 := Cleared(w, h);
      if accepted && Stale(w1.reg, h, endpoint).Some? {
        CompanionsAreRoommates(w1, Stale(w1.reg, h, endpoint).value, p);
      }
    }
  }

  lemma AnswerNamesOthers(c: Config, w1: World, h: Handoff, endpoint: Endpoint, p: int)
    ensures Left(h.sessionId) !in LoginAnswer(c, w1, h, endpoint, p)
  {
  }

  lemma LoginNamesOthers(c: Config, w: World, h: Handoff, accepted: bool, endpoint: Endpoint, profile: Payload, p: int)
    ensures Left(h.sessionId) !in LoginEvents(c, w, h, accepted, endpoint, profile, p)
    ensures h.sessionId !in Owed(c, w, Login(Some(h), accepted, endpoint, profile), p)
  {
    AnswerNamesOthers(c, Cleared(w, h), h, endpoint, p);
  }

  /** A player that logs in again leaves its room without anybody being told, then or later. */
  lemma ReloginIsSilent(c: Config, w: World, h: Handoff, accepted: bool, endpoint: Endpoint, profile: Payload, p: int)
    requires Good(w) && h.sessionId in w.reg.byId
    ensures Left(h.sessionId) !in LoginEvents(c, w, h, accepted, endpoint, profile, p)
    ensures h.sessionId !in Owed(c, w, Login(Some(h), accepted, endpoint, profile), p)
    ensures h.sessionId in LoggedIn(c, w, h, accepted, endpoint, profile).reg.byId
    ensures LoggedIn(c, w, h, accepted, endpoint, profile).reg.byId[h.sessionId].roomId == 0
  {
    LoginNamesOthers(c, w, h, accepted, endpoint, profile, p);
    RoomAfterLogin(c, w, h, accepted, endpoint, profile);
  }

  lemma RoomAfterLogin(c: Config, w: World, h: Handoff, accepted: bool, endpoint: Endpoint, profile: Payload)
    requires Good(w) && h.sessionId in w.reg.byId
    ensures h.sessionId in LoggedIn(c, w, h, accepted, endpoint, profile).reg.byId
    ensures LoggedIn(c, w, h, accepted, endpoint, profile).reg.byId[h.sessionId].roomId == 0
  {
    OutOfRoomKeepsGood(w, h.sessionId);
    ClearingKeepsGood(c, w, h, endpoint);
    var w2 := StaleEnded(c, Cleared(w, h), h, endpoint);
    SeatingPlaces(w2.reg, h, endpoint);
    if Adopts(w2.reg, h) { AdoptingPlaces(w2.reg, h); }
  }
}
