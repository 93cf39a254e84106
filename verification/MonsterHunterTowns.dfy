/**
  The quest round trip: a hunter belongs to at most one Town and to no quest
  room it is not in, and a Town it left for a quest keeps it, unchanged, until
  the return `STAT` brings it back to that same Town.
 */
module MonsterHunterTowns {
  import opened Snap
  import opened Sessions
  import opened Login
  import opened Rooms
  import opened MonsterHunter

  predicate ListsTown(w: World, r: int, s: int) {
    Lists(w.rooms, r, s) && IsTown(w.rooms.rooms[r])
  }

  /** One hunter is where the rooms say: in its room, and else only listed in one Town of its Area. */
  ghost predicate HunterOk(w: World, s: int) {
    && (s !in w.reg.byId ==> forall r :: !Lists(w.rooms, r, s))
    && (s in w.reg.byId ==>
          && w.reg.byId[s].roomId >= 0
          && (w.reg.byId[s].roomId > 0 ==> Lists(w.rooms, w.reg.byId[s].roomId, s))
          && (forall r :: Lists(w.rooms, r, s) ==>
                r > 0 && w.rooms.rooms[r].lobbyId == w.reg.byId[s].lobbyId
                    && (r == w.reg.byId[s].roomId || IsTown(w.rooms.rooms[r])))
          && (forall r, q :: ListsTown(w, r, s) && ListsTown(w, q, s) ==> r == q))
  }

  ghost predicate Good(c: Config, w: World) {
    Sound(w.reg) && WellKept(w.rooms, c.perRoom) && forall s :: HunterOk(w, s)
  }

  /** Nothing about `x` changes: where it is, who lists it, and what those rooms are. */
  ghost predicate Keeps(w: World, w': World, x: int) {
    && (x in w'.reg.byId <==> x in w.reg.byId)
    && (x in w.reg.byId ==>
          w'.reg.byId[x].roomId == w.reg.byId[x].roomId && w'.reg.byId[x].lobbyId == w.reg.byId[x].lobbyId)
    && (forall r :: Lists(w'.rooms, r, x) <==> Lists(w.rooms, r, x))
    && (forall r :: Lists(w.rooms, r, x) ==>
          w'.rooms.rooms[r].lobbyId == w.rooms.rooms[r].lobbyId
          && IsTown(w'.rooms.rooms[r]) == IsTown(w.rooms.rooms[r]))
  }

  lemma KeptHunterIsOk(w: World, w': World, x: int)
    requires HunterOk(w, x) && Keeps(w, w', x)
    ensures HunterOk(w', x)
  {
    forall r ensures ListsTown(w', r, x) <==> ListsTown(w, r, x) {}
  }

  /** Rooms that are left are as they were, apart from who is in them. */
  ghost predicate Alike(t: Table, t': Table) {
    && t'.nextId == t.nextId
    && forall r :: r in t'.rooms ==> r in t.rooms && t'.rooms[r].(members := t.rooms[r].members) == t.rooms[r]
  }

  // Detaching.

  lemma VacatingLists(t: Table, r: int, s: int, q: int, x: int)
    ensures Lists(Vacated(t, r, s), q, x) <==> Lists(t, q, x) && !(q == r && x == s)
    ensures Alike(t, Vacated(t, r, s))
  {
    if q == r && Lists(t, q, x) && x != s { assert x in t.rooms[r].members - {s}; }
  }

  lemma VacatingEachLists(t: Table, towns: set<int>, s: int, q: int, x: int)
    ensures Lists(VacatedEach(t, towns, s), q, x) <==> Lists(t, q, x) && !(q in towns && x == s)
    ensures Alike(t, VacatedEach(t, towns, s))
  {
    if q in towns && Lists(t, q, x) && x != s { assert x in t.rooms[q].members - {s}; }
  }

  lemma VacatingEachKeepsWellKept(t: Table, cap: nat, towns: set<int>, s: int)
    requires WellKept(t, cap)
    ensures WellKept(VacatedEach(t, towns, s), cap)
  {
    forall r | r in t.rooms ensures |t.rooms[r].members - {s}| <= |t.rooms[r].members| {
      SubsetCount(t.rooms[r].members - {s}, t.rooms[r].members);
    }
  }

  lemma RoomLeftLists(w: World, s: int, keep: bool, r: int, x: int)
    requires s in w.reg.byId && HunterOk(w, s)
    ensures Lists(RoomLeft(w, s, keep).rooms, r, x)
       <==> Lists(w.rooms, r, x) && (x != s || r != w.reg.byId[s].roomId || (keep && IsTown(w.rooms.rooms[r])))
    ensures Alike(w.rooms, RoomLeft(w, s, keep).rooms)
  {
    VacatingLists(w.rooms, w.reg.byId[s].roomId, s, r, x);
  }

  /** After `_detach` only the kept Town listing is left of the hunter, and nobody else is touched. */
  lemma DetachedLists(w: World, s: int, keep: bool, r: int, x: int)
    requires s in w.reg.byId && HunterOk(w, s)
    ensures Lists(Detached(w, s, keep).rooms, r, x)
       <==> Lists(w.rooms, r, x) && (x != s || (keep && IsTown(w.rooms.rooms[r])))
    ensures Alike(w.rooms, Detached(w, s, keep).rooms)
  {
    var w1 := RoomLeft(w, s, keep);
    RoomLeftLists(w, s, keep, r, x);
    VacatingEachLists(w1.rooms, ListingTowns(w1, s), s, r, x);
  }

  lemma DetachedIsOk(c: Config, w: World, s: int, keep: bool)
    requires Good(c, w) && s in w.reg.byId && c.perRoom >= 1
    ensures var w' := Detached(w, s, keep);
            Good(c, w') && s in w'.reg.byId && w'.reg.byId[s] == w.reg.byId[s].(roomId := 0)
    ensures forall x :: x != s ==> Keeps(w, Detached(w, s, keep), x)
  {
    var w' := Detached(w, s, keep);
    DetachedWellKept(c, w, s, keep);
    forall x | x != s ensures Keeps(w, w', x) && HunterOk(w', x) { DetachedKeeps(w, s, keep, x); }
    DetachedHunterOk(w, s, keep);
  }

  lemma DetachedWellKept(c: Config, w: World, s: int, keep: bool)
    requires Good(c, w) && s in w.reg.byId && c.perRoom >= 1
    ensures var w' := Detached(w, s, keep);
            && Sound(w'.reg) && WellKept(w'.rooms, c.perRoom)
            && s in w'.reg.byId && w'.reg.byId[s] == w.reg.byId[s].(roomId := 0)
  {
    assert HunterOk(w, s);
    var w1 := RoomLeft(w, s, keep);
    ChangesKeepWellKept(w.rooms, c.perRoom, NO_ROOM, w.reg.byId[s].roomId, s, 0);
    VacatingEachKeepsWellKept(w1.rooms, c.perRoom, ListingTowns(w1, s), s);
  }

  lemma DetachedKeeps(w: World, s: int, keep: bool, x: int)
    requires s in w.reg.byId && HunterOk(w, s) && HunterOk(w, x) && x != s
    ensures Keeps(w, Detached(w, s, keep), x) && HunterOk(Detached(w, s, keep), x)
  {
    var w' := Detached(w, s, keep);
    forall r ensures Lists(w'.rooms, r, x) <==> Lists(w.rooms, r, x) { DetachedLists(w, s, keep, r, x); }
    assert Alike(w.rooms, w'.rooms) by { DetachedLists(w, s, keep, 0, x); }
    KeptHunterIsOk(w, w', x);
  }

  lemma DetachedHunterOk(w: World, s: int, keep: bool)
    requires s in w.reg.byId && HunterOk(w, s)
    ensures HunterOk(Detached(w, s, keep), s)
  {
    var w' := Detached(w, s, keep);
    assert Alike(w.rooms, w'.rooms) by { DetachedLists(w, s, keep, 0, s); }
    forall r ensures Lists(w'.rooms, r, s) <==> keep && ListsTown(w, r, s) { DetachedLists(w, s, keep, r, s); }
    assert w'.reg.byId[s] == w.reg.byId[s].(roomId := 0);
    forall r ensures ListsTown(w', r, s) ==> ListsTown(w, r, s) {}
  }

  // One step.

  /** `x` is unmoved and nothing else but `x`'s company changed. */
  ghost predicate OthersKept(w: World, w': World, s: int) {
    forall x :: x != s ==> Keeps(w, w', x)
  }

  lemma KeptOthersAreOk(c: Config, w: World, w': World, s: int)
    requires Good(c, w) && OthersKept(w, w', s)
    requires Sound(w'.reg) && WellKept(w'.rooms, c.perRoom)
    ensures Good(c, w') <==> HunterOk(w', s)
  {
    forall x | x != s ensures HunterOk(w', x) { KeptHunterIsOk(w, w', x); }
  }

  lemma KeepsIsTransitive(a: World, b: World, d: World, s: int)
    requires OthersKept(a, b, s) && OthersKept(b, d, s)
    ensures OthersKept(a, d, s)
  {
    forall x | x != s ensures Keeps(a, d, x) {
      assert Keeps(a, b, x) && Keeps(b, d, x);
      forall r ensures Lists(d.rooms, r, x) <==> Lists(a.rooms, r, x) {}
    }
  }

  /** Going into room `r`: fine exactly when it is in the hunter's Area and, as a Town, the only one. */
  lemma GoingIn(w: World, w': World, s: int, r: int)
    requires HunterOk(w, s) && s in w.reg.byId && w.reg.byId[s].roomId == 0 && r > 0
    requires w'.reg == WithRoom(w.reg, s, r) && r in w'.rooms.rooms
    requires forall q, x :: Lists(w'.rooms, q, x) <==> Lists(w.rooms, q, x) || (q == r && x == s)
    requires forall q :: q in w.rooms.rooms && q in w'.rooms.rooms ==>
               w'.rooms.rooms[q].(members := {}) == w.rooms.rooms[q].(members := {})
    requires IsTown(w'.rooms.rooms[r]) ==> forall q :: ListsTown(w, q, s) ==> q == r
    ensures HunterOk(w', s) <==> w'.rooms.rooms[r].lobbyId == w.reg.byId[s].lobbyId
    ensures OthersKept(w, w', s)
  {
    assert Lists(w'.rooms, r, s);
    forall q ensures ListsTown(w', q, s) <==> ListsTown(w, q, s) || (q == r && IsTown(w'.rooms.rooms[r])) {
      assert Lists(w'.rooms, q, s) <==> Lists(w.rooms, q, s) || q == r;
    }
  }

  lemma LimitsFit(c: Config, wanted: nat)
    requires c.perRoom >= 1
    ensures 1 <= Limit(c, wanted) <= c.perRoom
  {
  }

  lemma CreatingIsOk(c: Config, w: World, s: int, name: string, password: string, rules: nat, wanted: nat)
    requires Good(c, w) && s in w.reg.byId && c.perRoom >= 1
    ensures Good(c, RoomCreated(c, w, s, name, password, rules, wanted))
    ensures OthersKept(w, RoomCreated(c, w, s, name, password, rules, wanted), s)
  {
    hide Detached, HasFlag;
    var w', town := RoomCreated(c, w, s, name, password, rules, wanted), HasFlag(rules, TOWN_RULES_FLAG);
    if !(town && CategoryFull(w.rooms, w.reg.byId[s].lobbyId, rules)) {
      var w1 := Detached(w, s, !town);
      DetachedIsOk(c, w, s, !town);
      LimitsFit(c, wanted);
      var room := Room(name, password, rules, Limit(c, wanted), w1.reg.byId[s].lobbyId, s, {s});
      ChangesKeepWellKept(w1.rooms, c.perRoom, room, 0, 0, 0);
      if town { forall q ensures !Lists(w1.rooms, q, s) { assert HunterOk(w, s); DetachedLists(w, s, false, q, s); } }
      forall q, x ensures Lists(w'.rooms, q, x) <==> Lists(w1.rooms, q, x) || (q == w1.rooms.nextId && x == s) {}
      assert HunterOk(w1, s);
      GoingIn(w1, w', s, w1.rooms.nextId);
      KeptOthersAreOk(c, w1, w', s);
      KeepsIsTransitive(w, w1, w', s);
    } else {
      assert w' == w;
    }
  }

  /** A successful join of a room in another Area. */
  predicate Strays(w: World, s: int, roomId: int)
    requires s in w.reg.byId
  {
    && roomId in w.rooms.rooms && w.reg.byId[s].roomId != roomId
    && w.rooms.rooms[roomId].lobbyId != w.reg.byId[s].lobbyId
    && |w.rooms.rooms[roomId].members| < w.rooms.rooms[roomId].maxPlayers
  }

  function KeepsListing(w: World, s: int, roomId: int): bool
    requires roomId in w.rooms.rooms
  {
    Lists(w.rooms, roomId, s) || !IsTown(w.rooms.rooms[roomId])
  }

  lemma EnteringIsOkIff(c: Config, w: World, s: int, roomId: int)
    requires Good(c, w) && s in w.reg.byId && c.perRoom >= 1
    requires roomId in w.rooms.rooms && w.reg.byId[s].roomId != roomId
    requires Admits(Detached(w, s, KeepsListing(w, s, roomId)).rooms, roomId, s)
    ensures Good(c, RoomJoined(w, s, roomId))
       <==> w.rooms.rooms[roomId].lobbyId == w.reg.byId[s].lobbyId
    ensures OthersKept(w, RoomJoined(w, s, roomId), s)
  {
    hide Detached;
    var keep := KeepsListing(w, s, roomId);
    var w1, w' := Detached(w, s, keep), RoomJoined(w, s, roomId);
    assert HunterOk(w, s);
    DetachedIsOk(c, w, s, keep);
    TargetStays(w, s, keep, roomId);
    ChangesKeepWellKept(w1.rooms, c.perRoom, NO_ROOM, roomId, s, 0);
    OnlyTown(w, s, roomId);
    forall q, x ensures Lists(w'.rooms, q, x) <==> Lists(w1.rooms, q, x) || (q == roomId && x == s) {}
    assert HunterOk(w1, s);
    GoingIn(w1, w', s, roomId);
    KeptOthersAreOk(c, w1, w', s);
    KeepsIsTransitive(w, w1, w', s);
  }

  lemma OnlyTown(w: World, s: int, roomId: int)
    requires s in w.reg.byId && HunterOk(w, s) && roomId in w.rooms.rooms
    ensures IsTown(w.rooms.rooms[roomId]) ==>
              forall q :: ListsTown(Detached(w, s, KeepsListing(w, s, roomId)), q, s) ==> q == roomId
  {
    var keep := KeepsListing(w, s, roomId);
    var w1 := Detached(w, s, keep);
    forall q | ListsTown(w1, q, s) && IsTown(w.rooms.rooms[roomId]) ensures q == roomId {
      DetachedLists(w, s, keep, q, s);
      assert ListsTown(w, q, s) && ListsTown(w, roomId, s);
    }
  }

  lemma JoiningIsOkIff(c: Config, w: World, s: int, roomId: int)
    requires Good(c, w) && s in w.reg.byId && c.perRoom >= 1
    ensures Good(c, RoomJoined(w, s, roomId)) <==> !Strays(w, s, roomId)
    ensures OthersKept(w, RoomJoined(w, s, roomId), s)
  {
    if roomId in w.rooms.rooms && w.reg.byId[s].roomId != roomId {
      var keep := KeepsListing(w, s, roomId);
      assert HunterOk(w, s);
      DetachedIsOk(c, w, s, keep);
      TargetStays(w, s, keep, roomId);
      if Admits(Detached(w, s, keep).rooms, roomId, s) {
        EnteringIsOkIff(c, w, s, roomId);
        if s in w.rooms.rooms[roomId].members { assert Lists(w.rooms, roomId, s); }
      }
    }
  }

  lemma Member<T>(s: set<T>) returns (x: T)
    requires s != {}
    ensures x in s
  {
    x :| x in s;
  }

  /** The room to join is untouched by leaving another one. */
  lemma TargetStays(w: World, s: int, keep: bool, roomId: int)
    requires s in w.reg.byId && HunterOk(w, s) && roomId in w.rooms.rooms && w.reg.byId[s].roomId != roomId
    requires keep == KeepsListing(w, s, roomId)
    requires w.rooms.rooms[roomId].members != {}
    ensures roomId in Detached(w, s, keep).rooms.rooms
    ensures Detached(w, s, keep).rooms.rooms[roomId] == w.rooms.rooms[roomId]
  {
    var x := Member(w.rooms.rooms[roomId].members);
    DetachedLists(w, s, keep, roomId, x);
    assert Lists(w.rooms, roomId, x);
    if x == s { assert IsTown(w.rooms.rooms[roomId]); }
    var w1 := Detached(w, s, keep);
    forall y ensures y in w1.rooms.rooms[roomId].members <==> y in w.rooms.rooms[roomId].members {
      DetachedLists(w, s, keep, roomId, y);
      assert Lists(w.rooms, roomId, y) <==> y in w.rooms.rooms[roomId].members;
      assert Lists(w1.rooms, roomId, y) <==> y in w1.rooms.rooms[roomId].members;
    }
  }

  /** Taking the Town flag off a Town that lists a hunter who is away. */
  predicate Strands(w: World, s: int, rules: nat)
    requires s in w.reg.byId
  {
    var r := w.reg.byId[s].roomId;
    && r in w.rooms.rooms && IsTown(w.rooms.rooms[r]) && !HasFlag(rules, TOWN_RULES_FLAG)
    && exists x :: x in w.rooms.rooms[r].members && x in w.reg.byId && w.reg.byId[x].roomId != r
  }

  lemma RulingKeepsOthers(w: World, r: int, rules: nat, x: int)
    requires HunterOk(w, x) && r in w.rooms.rooms
    requires IsTown(w.rooms.rooms[r]) == HasFlag(rules, TOWN_RULES_FLAG)
    ensures HunterOk(w.(rooms := Ruled(w.rooms, r, rules)), x)
    ensures Keeps(w, w.(rooms := Ruled(w.rooms, r, rules)), x)
  {
    var w' := w.(rooms := Ruled(w.rooms, r, rules));
    forall q ensures Lists(w'.rooms, q, x) <==> Lists(w.rooms, q, x) {}
    KeptHunterIsOk(w, w', x);
  }

  lemma UntowningHunter(w: World, r: int, rules: nat, x: int)
    requires HunterOk(w, x) && r in w.rooms.rooms && r > 0
    requires IsTown(w.rooms.rooms[r]) && !HasFlag(rules, TOWN_RULES_FLAG)
    ensures HunterOk(w.(rooms := Ruled(w.rooms, r, rules)), x)
       <==> !(x in w.rooms.rooms[r].members && x in w.reg.byId && w.reg.byId[x].roomId != r)
  {
    var w' := w.(rooms := Ruled(w.rooms, r, rules));
    forall q ensures Lists(w'.rooms, q, x) <==> Lists(w.rooms, q, x) {}
    forall q ensures ListsTown(w', q, x) <==> ListsTown(w, q, x) && q != r {}
    assert x in w.rooms.rooms[r].members <==> Lists(w'.rooms, r, x);
  }

  lemma RulingIsOkIff(c: Config, w: World, s: int, rules: nat)
    requires Good(c, w) && s in w.reg.byId && w.reg.byId[s].roomId in w.rooms.rooms
    requires !IsQuestReturn(w.rooms.rooms[w.reg.byId[s].roomId], rules)
    ensures Good(c, RulesChanged(w, s, rules)) <==> !Strands(w, s, rules)
  {
    var r := w.reg.byId[s].roomId;
    var w' := RulesChanged(w, s, rules);
    ChangesKeepWellKept(w.rooms, c.perRoom, NO_ROOM, r, s, rules);
    if IsTown(w.rooms.rooms[r]) == HasFlag(rules, TOWN_RULES_FLAG) {
      forall x ensures HunterOk(w', x) { RulingKeepsOthers(w, r, rules, x); }
    } else {
      forall x ensures HunterOk(w', x)
          <==> !(x in w.rooms.rooms[r].members && x in w.reg.byId && w.reg.byId[x].roomId != r) {
        UntowningHunter(w, r, rules, x);
      }
    }
  }

  // The return.

  /** A hunter away from a Town finds it by its rules, and by no others. */
  lemma OriginIsTheTown(w: World, s: int, rules: nat)
    requires s in w.reg.byId && HunterOk(w, s) && w.reg.byId[s].roomId in w.rooms.rooms
    requires !IsTown(w.rooms.rooms[w.reg.byId[s].roomId])
    ensures forall t :: ListsTown(w, t, s) ==>
              OriginTown(w, s, rules) == if w.rooms.rooms[t].rules == rules then Some(t) else None
    ensures (forall t :: !ListsTown(w, t, s)) ==> OriginTown(w, s, rules) == None
  {
    var towns := set r | r in ListingTowns(w, s) && w.rooms.rooms[r].rules == rules;
    forall r ensures r in ListingTowns(w, s) <==> ListsTown(w, r, s) {}
    if t :| ListsTown(w, t, s) {
      assert towns == if w.rooms.rooms[t].rules == rules then {t} else {};
    } else {
      assert towns == {};
    }
  }

  lemma ReturnKeepsGood(c: Config, w: World, s: int, origin: int)
    requires Good(c, w) && s in w.reg.byId && w.reg.byId[s].roomId in w.rooms.rooms
    requires !IsTown(w.rooms.rooms[w.reg.byId[s].roomId]) && ListsTown(w, origin, s)
    ensures var quest := w.reg.byId[s].roomId; var w' := ReturnedToOrigin(w, s, quest, origin);
            Good(c, w') && OthersKept(w, w', s) && w'.reg.byId[s].roomId == origin
            && origin in w'.rooms.rooms && w'.rooms.rooms[origin] == w.rooms.rooms[origin]
  {
    var quest := w.reg.byId[s].roomId;
    var w' := ReturnedToOrigin(w, s, quest, origin);
    assert HunterOk(w, s);
    ChangesKeepWellKept(w.rooms, c.perRoom, NO_ROOM, quest, s, 0);
    forall r, x ensures Lists(w'.rooms, r, x) <==> Lists(w.rooms, r, x) && !(r == quest && x == s) {
      VacatingLists(w.rooms, quest, s, r, x);
    }
    forall r ensures ListsTown(w', r, s) <==> ListsTown(w, r, s) {}
    KeptOthersAreOk(c, w, w', s);
  }

  lemma RulesChangedIsOkIff(c: Config, w: World, s: int, rules: nat)
    requires Good(c, w) && s in w.reg.byId
    ensures Good(c, RulesChanged(w, s, rules)) <==> !Strands(w, s, rules)
  {
    var r := w.reg.byId[s].roomId;
    assert HunterOk(w, s);
    if r in w.rooms.rooms {
      if IsQuestReturn(w.rooms.rooms[r], rules) {
        OriginIsTheTown(w, s, rules);
        var origin := OriginTown(w, s, rules);
        if origin.Some? { ReturnKeepsGood(c, w, s, origin.value); }
      } else {
        RulingIsOkIff(c, w, s, rules);
      }
    }
  }

  // Leaving the Area, and ending.

  lemma DetachedListsNothing(w: World, s: int, r: int)
    requires s in w.reg.byId && HunterOk(w, s)
    ensures !Lists(Detached(w, s, false).rooms, r, s)
  {
    DetachedLists(w, s, false, r, s);
  }

  lemma MovingAreaIsOk(c: Config, w: World, s: int, lobby: int)
    requires Good(c, w) && s in w.reg.byId && c.perRoom >= 1
    ensures var w1 := Detached(w, s, false);
            Good(c, w1.(reg := WithLobby(w1.reg, s, lobby)))
                && OthersKept(w, w1.(reg := WithLobby(w1.reg, s, lobby)), s)
  {
    var w1 := Detached(w, s, false);
    var w' := w1.(reg := WithLobby(w1.reg, s, lobby));
    assert HunterOk(w, s);
    DetachedIsOk(c, w, s, false);
    forall r ensures !Lists(w1.rooms, r, s) { DetachedListsNothing(w, s, r); }
    assert OthersKept(w1, w', s);
    KeptOthersAreOk(c, w1, w', s);
    KeepsIsTransitive(w, w1, w', s);
  }

  lemma PlayersDoNotMatter(c: Config, w: World, players: map<int, Player>)
    requires Good(c, w)
    ensures Good(c, w.(players := players)) && forall x :: Keeps(w, w.(players := players), x)
  {
    forall x ensures HunterOk(w.(players := players), x) && Keeps(w, w.(players := players), x) {
      assert HunterOk(w, x);
      KeptHunterIsOk(w, w.(players := players), x);
    }
  }

  lemma EndingIsOk(c: Config, w: World, s: int)
    requires Good(c, w) && s in w.reg.byId && c.perRoom >= 1
    ensures Good(c, Ended(w, s)) && OthersKept(w, Ended(w, s), s)
  {
    var w1, w' := Detached(w, s, false), Ended(w, s);
    assert HunterOk(w, s);
    DetachedIsOk(c, w, s, false);
    forall r ensures !Lists(w1.rooms, r, s) { DetachedListsNothing(w, s, r); }
    assert OthersKept(w1, w', s);
    KeptOthersAreOk(c, w1, w', s);
    KeepsIsTransitive(w, w1, w', s);
  }

  /** Adopting the login throws a session out of the registry that some room still lists. */
  predicate Orphans(w: World, h: Handoff) {
    && Adopts(w.reg, h) && Superseded(w.reg, h).Some?
    && exists r :: r in w.rooms.rooms && Lists(w.rooms, r, Superseded(w.reg, h).value)
  }

  lemma SeatingHunter(w: World, h: Handoff, endpoint: Endpoint, x: int)
    requires Sound(w.reg) && HunterOk(w, x) && (x == h.sessionId ==> forall r :: !Lists(w.rooms, r, x))
    requires h.sessionId in w.reg.byId ==> w.reg.byId[h.sessionId].roomId == 0
    ensures var w' := Seated(w, h, endpoint);
            && (x !in Pushed(w.reg, h) ==> HunterOk(w', x))
            && (x in Pushed(w.reg, h) ==> (HunterOk(w', x) <==> forall r :: !Lists(w.rooms, r, x)))
            && (x !in Pushed(w.reg, h) && x != h.sessionId ==> Keeps(w, w', x))
  {
    var w' := Seated(w, h, endpoint);
    SeatingPlaces(w.reg, h, endpoint);
    if Adopts(w.reg, h) { AdoptingPlaces(w.reg, h); }
    forall r ensures Lists(w'.rooms, r, x) <==> Lists(w.rooms, r, x) {}
    if x !in Pushed(w.reg, h) && x != h.sessionId { KeptHunterIsOk(w, w', x); }
  }

  lemma SeatingIsOkIff(c: Config, w: World, h: Handoff, endpoint: Endpoint)
    requires Good(c, w) && (h.sessionId in w.reg.byId ==> w.reg.byId[h.sessionId].roomId == 0)
    requires forall r :: !Lists(w.rooms, r, h.sessionId)
    ensures Good(c, Seated(w, h, endpoint)) <==> !Orphans(w, h)
  {
    SeatingPlaces(w.reg, h, endpoint);
    if Orphans(w, h) {
      var x := Superseded(w.reg, h).value;
      assert HunterOk(w, x);
      SeatingHunter(w, h, endpoint, x);
    } else {
      forall x ensures HunterOk(Seated(w, h, endpoint), x) {
        assert HunterOk(w, x);
        SeatingHunter(w, h, endpoint, x);
      }
    }
  }

  predicate OrphaningLogin(w: World, op: Op) {
    && op.Login? && op.handoff.Some? && op.accepted
    && Orphans(StaleEnded(Cleared(w, op.handoff.value), op.handoff.value, op.endpoint), op.handoff.value)
  }

  lemma ClearingIsOk(c: Config, w: World, h: Handoff, endpoint: Endpoint)
    requires Good(c, w) && c.perRoom >= 1
    ensures var w1 := Cleared(w, h); var w2 := StaleEnded(w1, h, endpoint);
            && Good(c, w1) && Good(c, w2)
            && (forall r :: !Lists(w1.rooms, r, h.sessionId)) && (forall r :: !Lists(w2.rooms, r, h.sessionId))
            && (h.sessionId in w2.reg.byId ==> w2.reg.byId[h.sessionId].roomId == 0)
            && OthersKept(w, w1, h.sessionId)
            && (Stale(w1.reg, h, endpoint).None? ==> w2 == w1)
            && (Stale(w1.reg, h, endpoint).Some? ==> OthersKept(w1, w2, Stale(w1.reg, h, endpoint).value))
  {
    assert HunterOk(w, h.sessionId);
    if h.sessionId in w.reg.byId {
      DetachedIsOk(c, w, h.sessionId, false);
      forall r ensures !Lists(Cleared(w, h).rooms, r, h.sessionId) { DetachedListsNothing(w, h.sessionId, r); }
    }
    var w1 := Cleared(w, h);
    if Stale(w1.reg, h, endpoint).Some? {
      EndingIsOk(c, w1, Stale(w1.reg, h, endpoint).value);
      assert Keeps(w1, StaleEnded(w1, h, endpoint), h.sessionId);
    }
  }

  /** What breaks the places: going into another Area's room, or taking the flag off a Town with a hunter away. */
  predicate Misplaces(w: World, s: int, command: Command)
    requires s in w.reg.byId
  {
    || (command.JoinRoom? && Strays(w, s, ServerRoomId(w, s, command.roomId)))
    || (command.ChangeRules? && command.word.Some? && Strands(w, s, command.word.value))
  }

  lemma HandlingIsOkIff(c: Config, w: World, s: int, command: Command)
    requires Good(c, w) && s in w.reg.byId && c.perRoom >= 1
    ensures Good(c, Handled(c, w, s, command)) <==> !Misplaces(w, s, command)
  {
    match command
    case Logout =>
      MovingAreaIsOk(c, w, s, 0);
      var w1 := Detached(w, s, false);
      PlayersDoNotMatter(c, w1.(reg := WithLobby(w1.reg, s, 0)), w1.players - {s});
    case CreateRoom(name, password, rules, wanted) => CreatingIsOk(c, w, s, name, password, rules, wanted);
    case JoinArea(area, full) => MovingAreaIsOk(c, w, s, area);
    case JoinRoom(roomId) => JoiningIsOkIff(c, w, s, ServerRoomId(w, s, roomId));
    case Leave(leaveArea) =>
      MovingAreaIsOk(c, w, s, 0);
      var r := w.reg.byId[s].roomId;
      DetachedIsOk(c, w, s, r in w.rooms.rooms && IsTown(w.rooms.rooms[r]) && IsDeparting(w, s));
    case ChangeRules(word) => if word.Some? { RulesChangedIsOkIff(c, w, s, word.value); }
    case _ => PlayersDoNotMatter(c, w, Handled(c, w, s, command).players);
  }

  predicate Misbehaves(w: World, op: Op) {
    || (op.Request? && Actor(w.reg, op.sessionId, op.endpoint).Some?
        && Misplaces(w, Actor(w.reg, op.sessionId, op.endpoint).value, op.command))
    || OrphaningLogin(w, op)
  }

  /** Each step keeps every hunter placed, exactly unless it is one of three kinds. */
  lemma StepKeepsGoodIff(c: Config, w: World, op: Op)
    requires Good(c, w) && c.perRoom >= 1
    ensures Good(c, Next(c, w, op)) <==> !Misbehaves(w, op)
  {
    match op
    case Request(sessionId, endpoint, command) =>
      var actor := Actor(w.reg, sessionId, endpoint);
      if actor.Some? { HandlingIsOkIff(c, w, actor.value, command); }
    case Login(h, accepted, endpoint) =>
      if h.Some? {
        ClearingIsOk(c, w, h.value, endpoint);
        if accepted { SeatingIsOkIff(c, StaleEnded(Cleared(w, h.value), h.value, endpoint), h.value, endpoint); }
      }
    case Timeout(sessionId, endpoint) =>
      var actor := Actor(w.reg, sessionId, endpoint);
      if actor.Some? { EndingIsOk(c, w, actor.value); }
  }

  // Whole runs.

  ghost predicate WellBehaved(c: Config, w: World, ops: seq<Op>)
    decreases |ops|
  {
    ops == [] || (!Misbehaves(w, ops[0]) && WellBehaved(c, Next(c, w, ops[0]), ops[1..]))
  }

  /**
    Over every well-behaved run: at most one Town per hunter, no quest room it is not
    in, no empty or overfull room.
   */
  lemma {:induction false} PlacesAreKept(c: Config, w: World, ops: seq<Op>)
    requires Good(c, w) && c.perRoom >= 1 && WellBehaved(c, w, ops)
    ensures Good(c, After(c, w, ops))
    decreases |ops|
  {
    if ops != [] {
      StepKeepsGoodIff(c, w, ops[0]);
      PlacesAreKept(c, Next(c, w, ops[0]), ops[1..]);
    }
  }

  lemma NobodyIsPlaced(c: Config)
    ensures Good(c, START)
  {
  }

  lemma PlacesAreKeptFromTheStart(c: Config, ops: seq<Op>)
    requires c.perRoom >= 1 && WellBehaved(c, START, ops)
    ensures Good(c, After(c, START, ops))
  {
    NobodyIsPlaced(c);
    PlacesAreKept(c, START, ops);
  }
}
