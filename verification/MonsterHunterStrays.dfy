/**
  What the misplaced hunters of `MonsterHunterTowns` come to: a join across
  Areas puts a hunter into two Towns three requests later, and a Town without
  its flag never takes back a hunter who is away.
 */
module MonsterHunterStrays {
  import opened Snap
  import opened Sessions
  import opened Login
  import opened Rooms
  import opened MonsterHunter
  import opened MonsterHunterTowns

  // The places without the Area clause.

  /** One hunter is in its room, if any, and else only listed in one Town, of whatever Area. */
  ghost predicate HunterOnce(w: World, s: int) {
    && (s !in w.reg.byId ==> forall r :: !Lists(w.rooms, r, s))
    && (s in w.reg.byId ==>
          && w.reg.byId[s].roomId >= 0
          && (w.reg.byId[s].roomId > 0 ==> Lists(w.rooms, w.reg.byId[s].roomId, s))
          && (forall r :: Lists(w.rooms, r, s) ==> r == w.reg.byId[s].roomId || IsTown(w.rooms.rooms[r]))
          && (forall r, q :: ListsTown(w, r, s) && ListsTown(w, q, s) ==> r == q))
  }

  ghost predicate PlacedOnce(c: Config, w: World) {
    Sound(w.reg) && WellKept(w.rooms, c.perRoom) && forall s :: HunterOnce(w, s)
  }

  /** `Good` is being placed once, in rooms of one's own Area. */
  lemma GoodIsPlacedOnce(c: Config, w: World)
    ensures Good(c, w) <==>
            && PlacedOnce(c, w)
            && forall s, r :: s in w.reg.byId && Lists(w.rooms, r, s) ==>
                 w.rooms.rooms[r].lobbyId == w.reg.byId[s].lobbyId
  {
    if PlacedOnce(c, w)
       && forall s, r :: s in w.reg.byId && Lists(w.rooms, r, s) ==> w.rooms.rooms[r].lobbyId == w.reg.byId[s].lobbyId {
      forall s ensures HunterOk(w, s) { assert HunterOnce(w, s); }
    }
    if Good(c, w) {
      forall s ensures HunterOnce(w, s) { assert HunterOk(w, s); }
      forall s, r | s in w.reg.byId && Lists(w.rooms, r, s) ensures w.rooms.rooms[r].lobbyId == w.reg.byId[s].lobbyId {
        assert HunterOk(w, s);
      }
    }
  }

  lemma OthersAreOnce(c: Config, w: World, w': World, s: int)
    requires Good(c, w) && OthersKept(w, w', s) && HunterOnce(w', s)
    requires Sound(w'.reg) && WellKept(w'.rooms, c.perRoom)
    ensures PlacedOnce(c, w')
  {
    forall x ensures HunterOnce(w', x) {
      if x != s {
        assert HunterOk(w, x) && Keeps(w, w', x);
        KeptHunterIsOk(w, w', x);
      }
    }
  }

  lemma GoingInIsOnce(w: World, w': World, s: int, r: int)
    requires HunterOk(w, s) && s in w.reg.byId && w.reg.byId[s].roomId == 0 && r > 0
    requires w'.reg == WithRoom(w.reg, s, r) && r in w'.rooms.rooms
    requires forall q, x :: Lists(w'.rooms, q, x) <==> Lists(w.rooms, q, x) || (q == r && x == s)
    requires forall q :: q in w.rooms.rooms && q in w'.rooms.rooms ==>
               w'.rooms.rooms[q].(members := {}) == w.rooms.rooms[q].(members := {})
    requires IsTown(w'.rooms.rooms[r]) ==> forall q :: ListsTown(w, q, s) ==> q == r
    ensures HunterOnce(w', s)
  {
    assert Lists(w'.rooms, r, s);
    forall q ensures ListsTown(w', q, s) <==> ListsTown(w, q, s) || (q == r && IsTown(w'.rooms.rooms[r])) {
      assert Lists(w'.rooms, q, s) <==> Lists(w.rooms, q, s) || q == r;
    }
  }

  /** A join of a room in another Area still places the hunter once. */
  lemma StrayingIsPlacedOnce(c: Config, w: World, s: int, roomId: int)
    requires Good(c, w) && s in w.reg.byId && c.perRoom >= 1 && Strays(w, s, roomId)
    ensures PlacedOnce(c, RoomJoined(w, s, roomId))
  {
    hide Detached;
    var keep := KeepsListing(w, s, roomId);
    var w1, w' := Detached(w, s, keep), RoomJoined(w, s, roomId);
    assert HunterOk(w, s);
    DetachedIsOk(c, w, s, keep);
    TargetStays(w, s, keep, roomId);
    ChangesKeepWellKept(w1.rooms, c.perRoom, NO_ROOM, roomId, s, 0);
    OnlyTown(w, s, roomId);
    forall q, x ensures Lists(w'.rooms, q, x) <==> Lists(w1.rooms, q, x) || (q == roomId && x == s) {}
    assert HunterOk(w1, s);
    GoingIn(w1, w', s, roomId);
    GoingInIsOnce(w1, w', s, roomId);
    OthersAreOnce(c, w1, w', s);
  }

  lemma StrandingIsNotPlacedOnce(c: Config, w: World, s: int, rules: nat)
    requires Good(c, w) && s in w.reg.byId && Strands(w, s, rules)
    ensures !PlacedOnce(c, RulesChanged(w, s, rules))
  {
    var r := w.reg.byId[s].roomId;
    var w' := RulesChanged(w, s, rules);
    var x :| x in w.rooms.rooms[r].members && x in w.reg.byId && w.reg.byId[x].roomId != r;
    assert Lists(w'.rooms, r, x) && !IsTown(w'.rooms.rooms[r]);
    assert !HunterOnce(w', x);
  }

  lemma OrphaningIsNotPlacedOnce(c: Config, w: World, op: Op)
    requires Good(c, w) && c.perRoom >= 1 && OrphaningLogin(w, op)
    ensures !PlacedOnce(c, Next(c, w, op))
  {
    var h := op.handoff.value;
    var w2 := StaleEnded(Cleared(w, h), h, op.endpoint);
    ClearingIsOk(c, w, h, op.endpoint);
    SeatingPlaces(w2.reg, h, op.endpoint);
    var x := Superseded(w2.reg, h).value;
    var r :| r in w2.rooms.rooms && Lists(w2.rooms, r, x);
    var w' := Next(c, w, op);
    assert x !in w'.reg.byId && Lists(w'.rooms, r, x);
    assert !HunterOnce(w', x);
  }

  predicate StrandsTown(w: World, op: Op) {
    && op.Request? && op.command.ChangeRules? && op.command.word.Some?
    && Actor(w.reg, op.sessionId, op.endpoint).Some?
    && Strands(w, Actor(w.reg, op.sessionId, op.endpoint).value, op.command.word.value)
  }

  /**
    From well-placed hunters one step leaves a hunter in two Towns, in a room
    it is not in, or dead in one, exactly when it takes the flag off a Town
    with a hunter away or pushes out a listed hunter; a join across Areas
    does not, by itself.
   */
  lemma StepPlacesOnceIff(c: Config, w: World, op: Op)
    requires Good(c, w) && c.perRoom >= 1
    ensures PlacedOnce(c, Next(c, w, op)) <==> !StrandsTown(w, op) && !OrphaningLogin(w, op)
  {
    StepKeepsGoodIff(c, w, op);
    if !Misbehaves(w, op) {
      GoodIsPlacedOnce(c, Next(c, w, op));
    } else if OrphaningLogin(w, op) {
      OrphaningIsNotPlacedOnce(c, w, op);
    } else {
      var s := Actor(w.reg, op.sessionId, op.endpoint).value;
      if op.command.JoinRoom? {
        StrayingIsPlacedOnce(c, w, s, ServerRoomId(w, s, op.command.roomId));
      } else {
        StrandingIsNotPlacedOnce(c, w, s, op.command.word.value);
      }
    }
  }

  // What a join across Areas leads to.

  predicate Joinable(w: World, r: int) {
    r in w.rooms.rooms && IsTown(w.rooms.rooms[r]) && |w.rooms.rooms[r].members| < w.rooms.rooms[r].maxPlayers
  }

  /** Joining a Town that does not list the hunter, told of what happens to one other Town. */
  lemma JoiningTown(w: World, s: int, town: int, other: int)
    requires s in w.reg.byId && Joinable(w, town) && !Lists(w.rooms, town, s) && w.reg.byId[s].roomId != town
    requires other != town && w.reg.byId[s].roomId != other
    requires other in w.rooms.rooms ==>
               w.rooms.rooms[other].lobbyId != w.reg.byId[s].lobbyId
                   || w.rooms.rooms[other].members - {s} == w.rooms.rooms[other].members
    ensures var w' := RoomJoined(w, s, town);
            && s in w'.reg.byId && w'.reg.byId[s] == w.reg.byId[s].(roomId := town)
            && town in w'.rooms.rooms && w'.rooms.rooms[town]
                == w.rooms.rooms[town].(members := w.rooms.rooms[town].members + {s})
            && (other in w.rooms.rooms ==> other in w'.rooms.rooms && w'.rooms.rooms[other] == w.rooms.rooms[other])
            && w'.players == Rested(w.players, s)
  {
    var w1 := RoomLeft(w, s, false);
    assert town in w1.rooms.rooms && w1.rooms.rooms[town] == w.rooms.rooms[town];
    assert town !in ListingTowns(w1, s);
  }

  /** Leaving a Town for a quest keeps every room as it is. */
  lemma DepartingTown(w: World, s: int, town: int)
    requires s in w.reg.byId && w.reg.byId[s].roomId == town > 0 && town in w.rooms.rooms && IsTown(w.rooms.rooms[town])
    requires IsDeparting(w, s)
    ensures var w' := Left(w, s, false);
            && s in w'.reg.byId && w'.reg.byId[s] == w.reg.byId[s].(roomId := 0) && w'.rooms == w.rooms
            && w'.players == Rested(w.players, s)
  {
  }

  function TwoTownRequests(s: int, endpoint: Endpoint, far: int, near: int): seq<Op> {
    [Request(s, endpoint, JoinRoom(far)), Request(s, endpoint, PrepareDeparture), Request(s, endpoint, Leave(false)),
     Request(s, endpoint, JoinRoom(near))]
  }

  /**
    In every well-placed world: a hunter that joins a Town of another Area,
    departs from it for a quest, and joins a Town of its own Area instead, is
    a member of both.
   */
  lemma StrayingEndsInTwoTowns(c: Config, w: World, s: int, endpoint: Endpoint, far: int, near: int)
    requires Good(c, w) && s in w.reg.byId && s in w.players && w.players[s].alias == None
    requires Joinable(w, far) && w.rooms.rooms[far].lobbyId != w.reg.byId[s].lobbyId
    requires Joinable(w, near) && w.rooms.rooms[near].lobbyId == w.reg.byId[s].lobbyId && !Lists(w.rooms, near, s)
    ensures var w' := After(c, w, TwoTownRequests(s, endpoint, far, near));
            far != near && ListsTown(w', far, s) && ListsTown(w', near, s) && !HunterOnce(w', s)
  {
    var ops := TwoTownRequests(s, endpoint, far, near);
    assert HunterOk(w, s);
    assert w.rooms.rooms[near].members - {s} == w.rooms.rooms[near].members;
    assert WellKept(w.rooms, c.perRoom) && far > 0;
    var w1, w2 := Next(c, w, ops[0]), Next(c, Next(c, w, ops[0]), ops[1]);
    JoiningTown(w, s, far, near);
    DepartingTown(w2, s, far);
    var w3 := Next(c, w2, ops[2]);
    JoiningTown(w3, s, near, far);
    FourRequests(c, w, ops);
    var w4 := Next(c, w3, ops[3]);
    assert ListsTown(w4, far, s) && ListsTown(w4, near, s);
  }

  lemma FourRequests(c: Config, w: World, ops: seq<Op>)
    requires |ops| == 4
    ensures After(c, w, ops) == Next(c, Next(c, Next(c, Next(c, w, ops[0]), ops[1]), ops[2]), ops[3])
  {
    hide Next;
    var w1 := Next(c, w, ops[0]);
    var w2 := Next(c, w1, ops[1]);
    var w3 := Next(c, w2, ops[2]);
    assert After(c, w, ops) == After(c, w1, ops[1..]);
    assert After(c, w1, ops[1..]) == After(c, w2, ops[1..][1..]) && ops[1..][1..] == ops[2..] && ops[1..][0] == ops[1];
    assert After(c, w2, ops[2..]) == After(c, w3, ops[2..][1..]) && ops[2..][1..] == ops[3..];
    assert After(c, w3, ops[3..]) == After(c, Next(c, w3, ops[3]), ops[3..][1..]) && ops[3..][1..] == [];
  }

  // What taking the flag off a Town leads to.

  /**
    A hunter away on a quest whose Town loses its flag stays listed in a room
    it is not in, and no return `STAT`, with whatever rules, takes it back.
   */
  lemma StrandedHunterCannotReturn(c: Config, w: World, s: int, rules: nat, x: int, word: nat)
    requires Good(c, w) && s in w.reg.byId && Strands(w, s, rules)
    requires var town := w.reg.byId[s].roomId;
             x in w.rooms.rooms[town].members && x in w.reg.byId && w.reg.byId[x].roomId != town
    requires w.reg.byId[x].roomId in w.rooms.rooms && IsQuestReturn(w.rooms.rooms[w.reg.byId[x].roomId], word)
    ensures var town, w' := w.reg.byId[s].roomId, RulesChanged(w, s, rules);
            && Lists(w'.rooms, town, x) && !IsTown(w'.rooms.rooms[town]) && w'.reg.byId[x].roomId != town
            && RulesChanged(w', x, word) == w'
  {
    var town, w' := w.reg.byId[s].roomId, RulesChanged(w, s, rules);
    assert HunterOk(w, x);
    assert ListsTown(w, town, x);
    forall r ensures r !in ListingTowns(w', x) {
      if r in ListingTowns(w', x) { assert ListsTown(w, r, x) && r != town; }
    }
    assert OriginTown(w', x, word) == None;
  }
}
