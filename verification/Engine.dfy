/**
  The engine's receive side (opensnap/core/engine.py): one datagram's messages in
  order, top-level reliable packets through the session's window, and every
  held datagram that a filled gap releases.

  What handlers do to the session tables is given by `Env`, and so is the order
  in which a set of session ids is visited; the results hold for any.  A handler
  sees the tables and everything dispatched before, so a plugin with state of
  its own is an `Env` too.
 */
module Engine {
  import opened Snap
  import opened Receiver
  import opened Sessions
  import opened MapSum

  /** How a handler may change the tables: logins restart, adopt and rebind; ends remove; rooms and lobbies move. */
  datatype Effect =
    | RestartEffect(sessionId: int)
    | AdoptEffect(handoff: Handoff)
    | RebindEffect(sessionId: int, endpoint: Endpoint)
    | EndEffect(sessionId: int)
    | PlaceEffect(sessionId: int, lobbyId: int, roomId: int)

  datatype Env = Env(
    handled: Message -> bool,
    handler: (Registry, seq<Message>, Message) -> seq<Effect>,
    order: set<int> -> seq<int>)

  /** A session's current epoch: the reliable numbers accepted, in order, and all that were offered to its window. */
  datatype Epoch = Epoch(accepted: seq<int>, offered: set<int>)

  const NO_EPOCH := Epoch([], {})

  datatype State = State(reg: Registry, dispatched: seq<Message>, acked: seq<Message>, log: map<int, Epoch>)

  const START := State(EMPTY, [], [], map[])

  predicate BareAck(m: Message) {
    m.command == CMD_ACK && HasFlag(m.typeFlags, FLAG_ROOM) && HasFlag(m.typeFlags, FLAG_RESPONSE)
  }

  predicate Windowed(m: Message) {
    !m.embedded && m.Reliable() && !BareAck(m)
  }

  /** A header with a stale session id is resolved by endpoint. */
  function Normalized(r: Registry, m: Message): Message {
    match Resolve(r, m.sessionId, m.endpoint)
    case Some(s) => m.(sessionId := s.sessionId)
    case None => m
  }

  function EpochOf(st: State, sessionId: int): Epoch {
    if sessionId in st.log then st.log[sessionId] else NO_EPOCH
  }

  function Offered(log: map<int, Epoch>, id: int, e: Epoch, n: int): map<int, Epoch> {
    log[id := e.(offered := e.offered + {n})]
  }

  function Applied(st: State, e: Effect): State {
    match e
    case RestartEffect(s) => st.(reg := Restarted(st.reg, s), log := st.log - {s})
    case AdoptEffect(h) => st.(reg := Adopted(st.reg, h), log := st.log - {h.sessionId})
    case RebindEffect(s, endpoint) => st.(reg := Rebound(st.reg, s, endpoint))
    case EndEffect(s) => st.(reg := Removed(st.reg, s), log := st.log - {s})
    case PlaceEffect(s, lobby, room) => st.(reg := WithRoom(WithLobby(st.reg, s, lobby), s, room))
  }

  function AppliedAll(st: State, effects: seq<Effect>): State
    decreases |effects|
  {
    if effects == [] then st else AppliedAll(Applied(st, effects[0]), effects[1..])
  }

  function Dispatched(env: Env, st: State, m: Message): State {
    if env.handled(m) then AppliedAll(st.(dispatched := st.dispatched + [m]), env.handler(st.reg, st.dispatched, m))
    else st
  }

  function ReceiptFor(r: Registry, m: Message): Receipt {
    if m.sessionId in r.byId
    then Accept(r.byId[m.sessionId].lastIncoming, r.byId[m.sessionId].held.Keys, m.sequence)
    else Duplicate
  }

  function AcceptedPacket(st: State, m: Message): State
    requires m.sessionId in st.reg.byId
  {
    var s := st.reg.byId[m.sessionId];
    var e := EpochOf(st, m.sessionId);
    st.(reg := WithSession(st.reg, m.sessionId, s.(lastIncoming := m.sequence)),
        log := Offered(st.log, m.sessionId, e.(accepted := e.accepted + [m.sequence]), m.sequence))
  }

  function HeldPacket(st: State, m: Message, datagram: seq<Message>): State
    requires m.sessionId in st.reg.byId
  {
    var s := st.reg.byId[m.sessionId];
    st.(reg := WithSession(st.reg, m.sessionId, s.(held := s.held[m.sequence := datagram])),
        acked := st.acked + [m],
        log := Offered(st.log, m.sessionId, EpochOf(st, m.sessionId), m.sequence))
  }

  function RepeatedPacket(st: State, m: Message): State {
    st.(acked := st.acked + [m], log := Offered(st.log, m.sessionId, EpochOf(st, m.sessionId), m.sequence))
  }

  /** `_handle_datagram_messages`: the new state and the sessions the messages belong to. */
  function Pass(env: Env, st: State, ms: seq<Message>, skipEmbedded: bool): (State, set<int>)
    decreases |ms|
  {
    if ms == [] then (st, {})
    else if skipEmbedded && ms[0].embedded then Pass(env, st, ms[1..], true)
    else
      var m := Normalized(st.reg, ms[0]);
      var live := m.sessionId in st.reg.byId;
      if BareAck(m) then
        var (st', ids) := Pass(env, st, ms[1..], false); (st', ids + {m.sessionId})
      else if Windowed(m) && ReceiptFor(st.reg, m) == Hold then
        (HeldPacket(st, m, [m] + ms[1..]), {m.sessionId})
      else if Windowed(m) && ReceiptFor(st.reg, m) == Duplicate && live then
        var (st', ids) := Pass(env, RepeatedPacket(st, m), ms[1..], true); (st', ids + {m.sessionId})
      else
        var st1 := if Windowed(m) && live then AcceptedPacket(st, m) else st;
        var (st', ids) := Pass(env, Dispatched(env, st1, m), ms[1..], false); (st', ids + {m.sessionId})
  }

  /** Take out of each session what is now in order, at most one datagram each. */
  function PopReady(reg: Registry, ids: seq<int>): (Registry, seq<seq<Message>>)
    decreases |ids|
  {
    if ids == [] then (reg, [])
    else
      var id := ids[0];
      if id in reg.byId && reg.byId[id].lastIncoming + 1 in reg.byId[id].held then
        var s := reg.byId[id];
        var n := s.lastIncoming + 1;
        var (reg', popped) := PopReady(WithSession(reg, id, s.(held := s.held - {n})), ids[1..]);
        (reg', [s.held[n]] + popped)
      else PopReady(reg, ids[1..])
  }

  // The invariant and the measure.

  /** What a session holds begins with its own packet of that number, ahead of what it has accepted. */
  predicate WellHeld(s: Session, id: int) {
    forall n :: n in s.held ==>
      && n > s.lastIncoming >= 0
      && s.held[n] != []
      && s.held[n][0].sessionId == id && s.held[n][0].sequence == n && Windowed(s.held[n][0])
  }

  predicate Drained(s: Session) {
    s.lastIncoming + 1 !in s.held
  }

  /** `busy` sessions may have a datagram ready to be taken out. */
  ghost predicate TableInv(reg: Registry, busy: set<int>) {
    && Sound(reg)
    && forall id :: id in reg.byId ==> WellHeld(reg.byId[id], id) && (id !in busy ==> Drained(reg.byId[id]))
  }

  /** The numbers accepted in a session's epoch are consecutive and end at its last one. */
  predicate LogInv(st: State) {
    forall id :: id in st.reg.byId ==>
      var log, last := EpochOf(st, id).accepted, st.reg.byId[id].lastIncoming;
      && (if log == [] then last == -1 else last >= 0)
      && (forall k :: 0 <= k < |log| ==> log[k] == last - |log| + 1 + k)
  }

  ghost function HeldWeight(s: Session): nat {
    Sum(map n | n in s.held :: |s.held[n]|)
  }

  ghost function TableWeight(reg: Registry): nat {
    Sum(Weights(reg.byId))
  }

  ghost function Weights(byId: map<int, Session>): map<int, nat> {
    map id | id in byId :: HeldWeight(byId[id])
  }

  function Length(queue: seq<seq<Message>>): nat {
    if queue == [] then 0 else |queue[0]| + Length(queue[1..])
  }

  lemma JoinThree<T>(a: seq<T>, b: seq<T>, c: seq<T>)
    ensures a + b + c == a + (b + c)
  {
  }

  lemma {:induction false} LengthConcat(a: seq<seq<Message>>, b: seq<seq<Message>>)
    ensures Length(a + b) == Length(a) + Length(b)
  {
    if a == [] {
      assert a + b == b;
    } else {
      LengthConcat(a[1..], b);
      assert (a + b)[1..] == a[1..] + b;
    }
  }

  lemma WeightsOfUpdate(byId: map<int, Session>, id: int, s: Session)
    ensures Weights(byId[id := s]) == Weights(byId)[id := HeldWeight(s)]
    ensures Weights(byId - {id}) == Weights(byId) - {id}
  {
  }

  lemma WeightOfUpdate(reg: Registry, id: int, s: Session)
    ensures id in reg.byId ==>
              TableWeight(WithSession(reg, id, s)) + HeldWeight(reg.byId[id]) == TableWeight(reg) + HeldWeight(s)
    ensures id !in reg.byId ==> TableWeight(WithSession(reg, id, s)) == TableWeight(reg) + HeldWeight(s)
  {
    WeightsOfUpdate(reg.byId, id, s);
    SumUpdate(Weights(reg.byId), id, HeldWeight(s));
  }

  lemma WeightOfRemoval(byId: map<int, Session>, id: int, e: map<Endpoint, int>, e': map<Endpoint, int>, s: Session)
    ensures TableWeight(Registry(byId - {id}, e')) <= TableWeight(Registry(byId, e))
  {
    WeightsOfUpdate(byId, id, s);
    SumUpdate(Weights(byId), id, 0);
  }

  lemma WeightOfHeldUpdate(s: Session, n: int, datagram: seq<Message>)
    requires n !in s.held
    ensures HeldWeight(s.(held := s.held[n := datagram])) == HeldWeight(s) + |datagram|
  {
    var w := map k | k in s.held :: |s.held[k]|;
    SumUpdate(w, n, |datagram|);
    var held' := s.held[n := datagram];
    assert w[n := |datagram|] == map k | k in held' :: |held'[k]|;
  }

  lemma WeightOfHeldRemoval(s: Session, n: int)
    requires n in s.held
    ensures HeldWeight(s.(held := s.held - {n})) + |s.held[n]| == HeldWeight(s)
  {
    var w := map k | k in s.held :: |s.held[k]|;
    SumRemove(w, n);
    var held' := s.held - {n};
    assert w - {n} == map k | k in held' :: |held'[k]|;
  }

  // Handlers never add to what is held.

  lemma AdoptKeepsTables(st: State, h: Handoff, busy: set<int>)
    requires TableInv(st.reg, busy) && LogInv(st)
    ensures TableInv(Applied(st, AdoptEffect(h)).reg, busy) && LogInv(Applied(st, AdoptEffect(h)))
  {
  }

  lemma RestartKeepsTables(st: State, s: int, busy: set<int>)
    requires TableInv(st.reg, busy) && LogInv(st)
    ensures TableInv(Applied(st, RestartEffect(s)).reg, busy) && LogInv(Applied(st, RestartEffect(s)))
  {
  }

  lemma AppliedKeepsTables(st: State, e: Effect, busy: set<int>)
    requires TableInv(st.reg, busy) && LogInv(st)
    ensures TableInv(Applied(st, e).reg, busy) && LogInv(Applied(st, e))
  {
    var reg := st.reg;
    match e
    case RestartEffect(s) => RestartKeepsTables(st, s, busy);
    case AdoptEffect(h) => AdoptKeepsTables(st, h, busy);
    case RebindEffect(s, endpoint) => RebindKeepsTables(st, s, endpoint, busy);
    case EndEffect(s) => EndKeepsTables(st, s, busy);
    case PlaceEffect(s, lobby, room) =>
      if s in reg.byId {
        UpdateKeepsTables(reg, s, reg.byId[s].(lobbyId := lobby), busy);
        var reg1 := WithLobby(reg, s, lobby);
        UpdateKeepsTables(reg1, s, reg1.byId[s].(roomId := room), busy);
      }
  }

  lemma RebindKeepsTables(st: State, s: int, endpoint: Endpoint, busy: set<int>)
    requires TableInv(st.reg, busy) && LogInv(st)
    ensures TableInv(Applied(st, RebindEffect(s, endpoint)).reg, busy) && LogInv(Applied(st, RebindEffect(s, endpoint)))
  {
  }

  lemma EndKeepsTables(st: State, s: int, busy: set<int>)
    requires TableInv(st.reg, busy) && LogInv(st)
    ensures TableInv(Applied(st, EndEffect(s)).reg, busy) && LogInv(Applied(st, EndEffect(s)))
  {
  }

  lemma AppliedWeighsNoMore(st: State, e: Effect)
    ensures TableWeight(Applied(st, e).reg) <= TableWeight(st.reg)
  {
    var reg := st.reg;
    match e
    case RestartEffect(s) =>
      if s in reg.byId { LighterSession(reg, s, reg.byId[s].(requestNumber := 0, lastIncoming := -1, held := map[])); }
    case AdoptEffect(h) =>
      AdoptedWeighsLess(reg, h);
    case RebindEffect(s, endpoint) =>
      if s in reg.byId {
        LighterSession(reg, s, reg.byId[s].(endpoint := endpoint));
        EntriesWeighNothing(WithSession(reg, s, reg.byId[s].(endpoint := endpoint)), Rebound(reg, s, endpoint));
      }
    case EndEffect(s) =>
      if s in reg.byId { WeightOfRemoval(reg.byId, s, reg.byEndpoint, Removed(reg, s).byEndpoint, reg.byId[s]); }
    case PlaceEffect(s, lobby, room) =>
      if s in reg.byId {
        LighterSession(reg, s, reg.byId[s].(lobbyId := lobby));
        var reg1 := WithLobby(reg, s, lobby);
        LighterSession(reg1, s, reg1.byId[s].(roomId := room));
      }
  }

  lemma LighterSession(reg: Registry, id: int, s: Session)
    requires id in reg.byId && (s.held == reg.byId[id].held || s.held == map[])
    ensures TableWeight(WithSession(reg, id, s)) <= TableWeight(reg)
  {
    WeightOfUpdate(reg, id, s);
    if s.held == map[] { EmptyWeighsNothing(s); }
  }

  lemma EntriesWeighNothing(a: Registry, b: Registry)
    requires a.byId == b.byId
    ensures TableWeight(a) == TableWeight(b)
  {
  }

  lemma AppliedKeeps(st: State, e: Effect, busy: set<int>)
    requires TableInv(st.reg, busy) && LogInv(st)
    ensures TableInv(Applied(st, e).reg, busy) && LogInv(Applied(st, e))
    ensures TableWeight(Applied(st, e).reg) <= TableWeight(st.reg)
  {
    AppliedKeepsTables(st, e, busy);
    AppliedWeighsNoMore(st, e);
  }

  lemma EmptyWeighsNothing(s: Session)
    requires s.held == map[]
    ensures HeldWeight(s) == 0
  {
    assert (map n | n in s.held :: |s.held[n]|) == map[];
  }

  lemma AdoptedWeighsLess(reg: Registry, h: Handoff)
    ensures TableWeight(Adopted(reg, h)) <= TableWeight(reg)
  {
    var entries := if h.sessionId in reg.byId then reg.byEndpoint - {reg.byId[h.sessionId].endpoint}
        else reg.byEndpoint;
    var reg1 := if h.endpoint in entries then Registry(reg.byId - {entries[h.endpoint]}, reg.byEndpoint) else reg;
    if h.endpoint in entries {
      WeightOfRemoval(reg.byId, entries[h.endpoint], reg.byEndpoint, reg.byEndpoint, NewSession(h));
    }
    WeightOfUpdate(reg1, h.sessionId, NewSession(h));
    EmptyWeighsNothing(NewSession(h));
    assert Adopted(reg, h).byId == WithSession(reg1, h.sessionId, NewSession(h)).byId;
  }

  lemma {:induction false} AppliedAllKeeps(st: State, effects: seq<Effect>, busy: set<int>)
    requires TableInv(st.reg, busy) && LogInv(st)
    ensures TableInv(AppliedAll(st, effects).reg, busy) && LogInv(AppliedAll(st, effects))
    ensures TableWeight(AppliedAll(st, effects).reg) <= TableWeight(st.reg)
    decreases |effects|
  {
    if effects != [] {
      AppliedKeeps(st, effects[0], busy);
      AppliedAllKeeps(Applied(st, effects[0]), effects[1..], busy);
    }
  }

  lemma DispatchedKeeps(env: Env, st: State, m: Message, busy: set<int>)
    requires TableInv(st.reg, busy) && LogInv(st)
    ensures TableInv(Dispatched(env, st, m).reg, busy) && LogInv(Dispatched(env, st, m))
    ensures TableWeight(Dispatched(env, st, m).reg) <= TableWeight(st.reg)
  {
    if env.handled(m) {
      AppliedAllKeeps(st.(dispatched := st.dispatched + [m]), env.handler(st.reg, st.dispatched, m), busy);
    }
  }

  // One datagram.

  /** Replacing one session by another well-formed one with the same id and endpoint. */
  lemma UpdateKeepsTables(reg: Registry, id: int, s: Session, busy: set<int>)
    requires TableInv(reg, busy) && id in reg.byId
    requires s.sessionId == id && s.endpoint == reg.byId[id].endpoint
    requires WellHeld(s, id) && (id !in busy ==> Drained(s))
    ensures TableInv(WithSession(reg, id, s), busy)
  {
  }

  lemma HoldKeeps(st: State, m: Message, rest: seq<Message>, busy: set<int>)
    requires TableInv(st.reg, busy) && LogInv(st)
    requires Windowed(m) && ReceiptFor(st.reg, m) == Hold
    ensures var st' := HeldPacket(st, m, [m] + rest);
            && TableInv(st'.reg, busy) && LogInv(st')
            && TableWeight(st'.reg) == TableWeight(st.reg) + 1 + |rest|
  {
    HoldKeepsLog(st, m, [m] + rest);
    var s := st.reg.byId[m.sessionId];
    var s' := s.(held := s.held[m.sequence := [m] + rest]);
    assert s.sessionId == m.sessionId && WellHeld(s', m.sessionId) && (m.sessionId !in busy ==> Drained(s'));
    hide TableInv, LogInv, TableWeight;
    UpdateKeepsTables(st.reg, m.sessionId, s', busy);
    HoldWeighs(st.reg, m.sessionId, m.sequence, [m] + rest);
  }

  lemma HoldKeepsLog(st: State, m: Message, datagram: seq<Message>)
    requires LogInv(st) && m.sessionId in st.reg.byId
    ensures LogInv(HeldPacket(st, m, datagram))
  {
  }

  lemma HoldWeighs(reg: Registry, id: int, n: int, datagram: seq<Message>)
    requires id in reg.byId && n !in reg.byId[id].held
    ensures TableWeight(WithSession(reg, id, reg.byId[id].(held := reg.byId[id].held[n := datagram])))
         == TableWeight(reg) + |datagram|
  {
    WeightOfHeldUpdate(reg.byId[id], n, datagram);
    WeightOfUpdate(reg, id, reg.byId[id].(held := reg.byId[id].held[n := datagram]));
  }

  lemma AcceptKeeps(st: State, m: Message, busy: set<int>)
    requires TableInv(st.reg, busy) && LogInv(st)
    requires m.sessionId in st.reg.byId && ReceiptFor(st.reg, m) == Deliver
    ensures var st' := AcceptedPacket(st, m);
            && TableInv(st'.reg, busy + {m.sessionId}) && LogInv(st')
            && TableWeight(st'.reg) == TableWeight(st.reg)
  {
    AcceptKeepsTables(st, m, busy);
    var s := st.reg.byId[m.sessionId];
    hide TableInv, LogInv, TableWeight;
    WeightOfUpdate(st.reg, m.sessionId, s.(lastIncoming := m.sequence));
    assert HeldWeight(s.(lastIncoming := m.sequence)) == HeldWeight(s);
  }

  lemma AcceptKeepsTables(st: State, m: Message, busy: set<int>)
    requires TableInv(st.reg, busy) && LogInv(st)
    requires m.sessionId in st.reg.byId && ReceiptFor(st.reg, m) == Deliver
    ensures TableInv(AcceptedPacket(st, m).reg, busy + {m.sessionId}) && LogInv(AcceptedPacket(st, m))
  {
  }

  lemma RepeatKeeps(st: State, m: Message, busy: set<int>)
    requires TableInv(st.reg, busy) && LogInv(st)
    ensures RepeatedPacket(st, m).reg == st.reg && LogInv(RepeatedPacket(st, m))
  {
  }

  lemma MoreMayBeBusy(st: State, id: int, busy: set<int>)
    requires TableInv(st.reg, busy)
    ensures TableInv(st.reg, busy + {id})
  {
  }

  /** One pass keeps the tables well formed, and every message is consumed or held. */
  lemma {:induction false} PassKeeps(env: Env, st: State, ms: seq<Message>, skip: bool, busy: set<int>)
    requires TableInv(st.reg, busy) && LogInv(st)
    ensures var (st', ids) := Pass(env, st, ms, skip);
            && TableInv(st'.reg, busy + ids) && LogInv(st')
            && TableWeight(st'.reg) <= TableWeight(st.reg) + |ms|
            && (ms != [] && TableWeight(st'.reg) == TableWeight(st.reg) + |ms| ==> TableInv(st'.reg, busy))
    decreases |ms|
  {
    if ms != [] {
      if skip && ms[0].embedded {
        PassKeeps(env, st, ms[1..], true, busy);
      } else {
        PassKeepsHead(env, st, ms, skip, busy);
      }
    }
  }

  lemma {:induction false} PassKeepsHead(env: Env, st: State, ms: seq<Message>, skip: bool, busy: set<int>)
    requires TableInv(st.reg, busy) && LogInv(st)
    requires ms != [] && (skip ==> !ms[0].embedded)
    ensures var (st', ids) := Pass(env, st, ms, skip);
            && TableInv(st'.reg, busy + ids) && LogInv(st')
            && TableWeight(st'.reg) <= TableWeight(st.reg) + |ms|
            && (TableWeight(st'.reg) == TableWeight(st.reg) + |ms| ==> TableInv(st'.reg, busy))
    decreases |ms|, 0
  {
    hide TableInv, LogInv, TableWeight, AcceptedPacket, HeldPacket, RepeatedPacket, Dispatched;
    var m := Normalized(st.reg, ms[0]);
    var live := m.sessionId in st.reg.byId;
    var id := m.sessionId;
    if BareAck(m) {
      PassKeeps(env, st, ms[1..], false, busy);
      Regroup(Pass(env, st, ms[1..], false).0.reg, busy, {}, id, Pass(env, st, ms[1..], false).1);
    } else if Windowed(m) && ReceiptFor(st.reg, m) == Hold {
      HoldKeeps(st, m, ms[1..], busy);
      MoreMayBeBusy(HeldPacket(st, m, [m] + ms[1..]), id, busy);
    } else if Windowed(m) && ReceiptFor(st.reg, m) == Duplicate && live {
      RepeatKeeps(st, m, busy);
      PassKeeps(env, RepeatedPacket(st, m), ms[1..], true, busy);
      Regroup(Pass(env, RepeatedPacket(st, m), ms[1..], true).0.reg, busy, {}, id,
          Pass(env, RepeatedPacket(st, m), ms[1..], true).1);
    } else {
      var st1 := if Windowed(m) && live then AcceptedPacket(st, m) else st;
      if Windowed(m) && live { AcceptKeeps(st, m, busy); } else { MoreMayBeBusy(st, id, busy); }
      DispatchedKeeps(env, st1, m, busy + {id});
      PassKeeps(env, Dispatched(env, st1, m), ms[1..], false, busy + {id});
      Regroup(Pass(env, Dispatched(env, st1, m), ms[1..], false).0.reg, busy, {id}, id,
              Pass(env, Dispatched(env, st1, m), ms[1..], false).1);
    }
  }

  lemma Regroup(reg: Registry, busy: set<int>, more: set<int>, id: int, ids: set<int>)
    requires more <= {id} && TableInv(reg, busy + more + ids)
    ensures TableInv(reg, busy + (ids + {id}))
  {
  }

  // Releasing what is in order, and the loop.

  predicate SameProgress(a: Registry, b: Registry) {
    a.byId.Keys == b.byId.Keys && forall id :: id in a.byId ==> a.byId[id].lastIncoming == b.byId[id].lastIncoming
  }

  function PopOne(reg: Registry, id: int): Registry
    requires id in reg.byId
  {
    var s := reg.byId[id];
    WithSession(reg, id, s.(held := s.held - {s.lastIncoming + 1}))
  }

  lemma PopOneDrains(reg: Registry, id: int, busy: set<int>)
    requires TableInv(reg, busy) && id in reg.byId && reg.byId[id].lastIncoming + 1 in reg.byId[id].held
    ensures id in busy && TableInv(PopOne(reg, id), busy - {id}) && SameProgress(reg, PopOne(reg, id))
  {
    var s := reg.byId[id];
    UpdateKeepsTables(reg, id, s.(held := s.held - {s.lastIncoming + 1}), busy);
  }

  lemma {:induction false} PopReadyKeepsTables(reg: Registry, ids: seq<int>, busy: set<int>)
    requires TableInv(reg, busy)
    ensures var (reg', popped) := PopReady(reg, ids);
            && TableInv(reg', busy - (set id | id in ids))
            && SameProgress(reg, reg')
            && (busy == {} ==> popped == [])
    decreases |ids|
  {
    if ids != [] {
      var id := ids[0];
      assert busy - {id} - (set x | x in ids[1..]) == busy - (set x | x in ids);
      if id in reg.byId && reg.byId[id].lastIncoming + 1 in reg.byId[id].held {
        PopOneDrains(reg, id, busy);
        hide TableInv;
        PopReadyKeepsTables(PopOne(reg, id), ids[1..], busy - {id});
      } else {
        PopReadyKeepsTables(reg, ids[1..], busy - {id});
      }
    }
  }

  lemma {:induction false} PopReadyWeighs(reg: Registry, ids: seq<int>)
    ensures var (reg', popped) := PopReady(reg, ids);
            TableWeight(reg') + Length(popped) == TableWeight(reg)
    decreases |ids|
  {
    if ids != [] {
      var id := ids[0];
      if id in reg.byId && reg.byId[id].lastIncoming + 1 in reg.byId[id].held {
        PopOneWeighs(reg, id);
        PopReadyWeighs(PopOne(reg, id), ids[1..]);
      } else {
        PopReadyWeighs(reg, ids[1..]);
      }
    }
  }

  lemma PopOneWeighs(reg: Registry, id: int)
    requires id in reg.byId && reg.byId[id].lastIncoming + 1 in reg.byId[id].held
    ensures TableWeight(PopOne(reg, id)) + |reg.byId[id].held[reg.byId[id].lastIncoming + 1]| == TableWeight(reg)
  {
    var s := reg.byId[id];
    WeightOfHeldRemoval(s, s.lastIncoming + 1);
    WeightOfUpdate(reg, id, s.(held := s.held - {s.lastIncoming + 1}));
  }

  /** `listing` holds each of `ids` once. */
  ghost predicate Lists(listing: seq<int>, ids: set<int>) {
    && (forall id :: id in ids <==> id in listing)
    && |listing| == |ids|
  }

  ghost predicate Enumerates(order: set<int> -> seq<int>) {
    forall ids: set<int> :: Lists(order(ids), ids)
  }

  ghost predicate Ready(env: Env, st: State) {
    Enumerates(env.order) && TableInv(st.reg, {}) && LogInv(st)
  }

  /** One turn of the loop: handle the first datagram of the queue, then queue what it released. */
  function Turn(env: Env, st: State, queue: seq<seq<Message>>): (State, seq<seq<Message>>)
    requires queue != []
  {
    var (st1, ids) := Pass(env, st, queue[0], false);
    var (reg, popped) := PopReady(st1.reg, env.order(ids));
    (st1.(reg := reg), queue[1..] + popped)
  }

  lemma OrderCovers(order: set<int> -> seq<int>, ids: set<int>)
    requires Enumerates(order)
    ensures ids - (set id | id in order(ids)) == {}
  {
    assert Lists(order(ids), ids);
    forall id | id in ids ensures id in set x | x in order(ids) {}
  }

  lemma TurnKeepsReady(env: Env, st: State, queue: seq<seq<Message>>)
    requires queue != [] && Ready(env, st)
    ensures Ready(env, Turn(env, st, queue).0)
  {
    var (st1, ids) := Pass(env, st, queue[0], false);
    PassKeeps(env, st, queue[0], false, {});
    assert {} + ids == ids;
    var order := env.order(ids);
    OrderCovers(env.order, ids);
    PopReadyKeepsTables(st1.reg, order, ids);
    SameLog(st1, st1.(reg := PopReady(st1.reg, order).0));
  }

  lemma SameLog(a: State, b: State)
    requires LogInv(a) && a.log == b.log && SameProgress(a.reg, b.reg)
    ensures LogInv(b)
  {
  }

  /** A pass that uses no message up releases nothing. */
  lemma IdlePassReleasesNothing(env: Env, st: State, ms: seq<Message>)
    requires Ready(env, st)
    requires var (st1, _) := Pass(env, st, ms, false); TableWeight(st1.reg) == TableWeight(st.reg) + |ms|
    ensures var (st1, ids) := Pass(env, st, ms, false); PopReady(st1.reg, env.order(ids)).1 == []
  {
    var (st1, ids) := Pass(env, st, ms, false);
    PassKeeps(env, st, ms, false, {});
    PopReadyKeepsTables(st1.reg, env.order(ids), {});
  }

  /**
    Termination: messages queued and held never grow, and a turn that does not
    use one up moved a whole datagram to the held table and released nothing.
   */
  lemma TurnShrinks(env: Env, st: State, queue: seq<seq<Message>>)
    requires queue != [] && Ready(env, st)
    ensures var (st', queue') := Turn(env, st, queue);
            && Ready(env, st')
            && TableWeight(st'.reg) + Length(queue') <= TableWeight(st.reg) + Length(queue)
            && (TableWeight(st'.reg) + Length(queue') == TableWeight(st.reg) + Length(queue) ==> |queue'| < |queue|)
  {
    var (st1, ids) := Pass(env, st, queue[0], false);
    TurnKeepsReady(env, st, queue);
    PassKeeps(env, st, queue[0], false, {});
    PopReadyWeighs(st1.reg, env.order(ids));
    LengthConcat(queue[1..], PopReady(st1.reg, env.order(ids)).1);
    if TableWeight(st1.reg) == TableWeight(st.reg) + |queue[0]| {
      IdlePassReleasesNothing(env, st, queue[0]);
    }
  }

  /** `_handle_in_order` */
  function HandledInOrder(env: Env, st: State, queue: seq<seq<Message>>): State
    requires Ready(env, st)
    decreases TableWeight(st.reg) + Length(queue), |queue|
  {
    if queue == [] then st
    else
      TurnShrinks(env, st, queue);
      var (st', queue') := Turn(env, st, queue);
      HandledInOrder(env, st', queue')
  }

  /**
    Whatever arrives, for whichever sessions: afterwards no session holds the
    packet it waits for, and each has accepted consecutive numbers, once each.
   */
  lemma {:induction false} DrainKeeps(env: Env, st: State, queue: seq<seq<Message>>)
    requires Ready(env, st)
    ensures Ready(env, HandledInOrder(env, st, queue))
    decreases TableWeight(st.reg) + Length(queue), |queue|
  {
    if queue != [] {
      TurnShrinks(env, st, queue);
      var (st', queue') := Turn(env, st, queue);
      DrainKeeps(env, st', queue');
    }
  }

  // Datagrams.

  /** One datagram and the address it came from, which its messages carry too. */
  datatype Datagram = Datagram(endpoint: Endpoint, messages: seq<Message>)

  /** The session of the first message whose client's packets now come from another port of the same host. */
  function Moving(reg: Registry, ms: seq<Message>, endpoint: Endpoint): Option<int>
    decreases |ms|
  {
    if ms == [] then None
    else
      var id := ms[0].sessionId;
      if id in reg.byId && reg.byId[id].endpoint != endpoint && reg.byId[id].endpoint.host == endpoint.host
      then Some(id)
      else Moving(reg, ms[1..], endpoint)
  }

  /** `_follow_port_change` */
  function Followed(st: State, d: Datagram): State {
    var id := Moving(st.reg, d.messages, d.endpoint);
    if id.Some? then Applied(st, RebindEffect(id.value, d.endpoint)) else st
  }

  /** Following a client moves one session at most, of those named in the datagram, and never to another host. */
  lemma {:induction false} FollowingStaysOnTheHost(reg: Registry, ms: seq<Message>, endpoint: Endpoint)
    ensures var id := Moving(reg, ms, endpoint);
            id.Some? ==>
              && id.value in reg.byId && reg.byId[id.value].endpoint.host == endpoint.host
              && exists i :: 0 <= i < |ms| && ms[i].sessionId == id.value
    decreases |ms|
  {
    if ms != [] {
      FollowingStaysOnTheHost(reg, ms[1..], endpoint);
      if Moving(reg, ms[1..], endpoint).Some? {
        var i :| 0 <= i < |ms[1..]| && ms[1..][i].sessionId == Moving(reg, ms[1..], endpoint).value;
        assert ms[i + 1].sessionId == ms[1..][i].sessionId;
      }
      assert ms[0].sessionId == ms[0].sessionId;
    }
  }

  /** A live session whose packets now come from another port of its own host. */
  predicate MovedAway(reg: Registry, id: int, endpoint: Endpoint) {
    && id in reg.byId && reg.byId[id].endpoint.host == endpoint.host && reg.byId[id].endpoint.port != endpoint.port
  }

  /** The first session named in a datagram that moved away is the one to move, and without one there is none. */
  lemma {:induction false} MovingIsTheFirst(reg: Registry, ms: seq<Message>, endpoint: Endpoint, i: nat)
    requires i <= |ms| && forall j :: 0 <= j < i ==> !MovedAway(reg, ms[j].sessionId, endpoint)
    ensures i == |ms| ==> Moving(reg, ms, endpoint) == None
    ensures i < |ms| && MovedAway(reg, ms[i].sessionId, endpoint) ==>
              Moving(reg, ms, endpoint) == Some(ms[i].sessionId)
    decreases |ms|
  {
    if ms != [] {
      assert ms[0].sessionId in reg.byId ==>
          (MovedAway(reg, ms[0].sessionId, endpoint) <==>
           reg.byId[ms[0].sessionId].endpoint != endpoint
           && reg.byId[ms[0].sessionId].endpoint.host == endpoint.host);
      if i > 0 { MovingIsTheFirst(reg, ms[1..], endpoint, i - 1); }
    }
  }

  /**
    A datagram moves the first session it names that moved away to where it came
    from, with its endpoint entry, and touches no other session; if it names none,
    nothing changes.
   */
  lemma FollowsTheFirst(st: State, d: Datagram, i: nat)
    requires i <= |d.messages|
    requires forall j :: 0 <= j < i ==> !MovedAway(st.reg, d.messages[j].sessionId, d.endpoint)
    ensures i == |d.messages| ==> Followed(st, d) == st
    ensures i < |d.messages| && MovedAway(st.reg, d.messages[i].sessionId, d.endpoint) ==>
              var id, reg := d.messages[i].sessionId, Followed(st, d).reg;
              && reg.byId.Keys == st.reg.byId.Keys
              && reg.byId[id] == st.reg.byId[id].(endpoint := d.endpoint)
              && (forall s :: s in reg.byId && s != id ==> reg.byId[s] == st.reg.byId[s])
              && d.endpoint in reg.byEndpoint && reg.byEndpoint[d.endpoint] == id
              && st.reg.byId[id].endpoint !in reg.byEndpoint
              && Followed(st, d).log == st.log
  {
    MovingIsTheFirst(st.reg, d.messages, d.endpoint, i);
  }

  lemma FollowedKeepsReady(env: Env, st: State, d: Datagram)
    requires Ready(env, st)
    ensures Ready(env, Followed(st, d))
  {
    var id := Moving(st.reg, d.messages, d.endpoint);
    if id.Some? { RebindKeepsTables(st, id.value, d.endpoint, {}); }
  }

  /** `handle_datagram`, decoding aside. */
  function HandledDatagram(env: Env, st: State, d: Datagram): State
    requires Ready(env, st)
  {
    FollowedKeepsReady(env, st, d);
    HandledInOrder(env, Followed(st, d), [d.messages])
  }

  /** A datagram, or what the server does by itself between two of them: ticks and timeouts end sessions. */
  datatype Input = Arrives(datagram: Datagram) | Does(effects: seq<Effect>)

  function HandledInput(env: Env, st: State, input: Input): State
    requires Ready(env, st)
  {
    match input
    case Arrives(d) => HandledDatagram(env, st, d)
    case Does(effects) => AppliedAll(st, effects)
  }

  lemma InputKeepsReady(env: Env, st: State, input: Input)
    requires Ready(env, st)
    ensures Ready(env, HandledInput(env, st, input))
  {
    match input
    case Arrives(d) =>
      FollowedKeepsReady(env, st, d);
      DrainKeeps(env, Followed(st, d), [d.messages]);
    case Does(effects) => AppliedAllKeeps(st, effects, {});
  }

  function HandleAll(env: Env, st: State, inputs: seq<Input>): State
    requires Ready(env, st)
    ensures Ready(env, HandleAll(env, st, inputs))
  {
    if inputs == [] then st
    else
      var st' := HandleAll(env, st, inputs[..|inputs| - 1]);
      InputKeepsReady(env, st', inputs[|inputs| - 1]);
      HandledInput(env, st', inputs[|inputs| - 1])
  }

  class SnapEngine {
    const sessions: SessionRegistry
    const env: Env
    var dispatched: seq<Message>
    var acked: seq<Message>
    ghost var log: map<int, Epoch>

    constructor (env: Env)
      ensures this.env == env && fresh(sessions)
      ensures StateOf() == START
    {
      this.env := env;
      sessions := new SessionRegistry();
      dispatched, acked, log := [], [], map[];
    }

    ghost function StateOf(): State
      reads this, sessions
    {
      State(sessions.State(), dispatched, acked, log)
    }

    method ApplyEffects(effects: seq<Effect>)
      modifies this, sessions
      ensures StateOf() == AppliedAll(old(StateOf()), effects)
    {
      for i := 0 to |effects|
        invariant AppliedAll(old(StateOf()), effects) == AppliedAll(StateOf(), effects[i..])
      {
        ApplyEffect(effects[i]);
        assert effects[i..][0] == effects[i] && effects[i..][1..] == effects[i + 1..];
      }
    }

    method ApplyEffect(e: Effect)
      modifies this, sessions
      ensures StateOf() == Applied(old(StateOf()), e)
    {
      match e
      case RestartEffect(s) =>
        sessions.RestartReliable(s);
        log := log - {s};
      case AdoptEffect(h) =>
        var _ := sessions.Adopt(h);
        log := log - {h.sessionId};
      case RebindEffect(s, endpoint) =>
        sessions.RebindEndpoint(s, endpoint);
      case EndEffect(s) =>
        sessions.Remove(s);
        log := log - {s};
      case PlaceEffect(s, lobby, room) =>
        sessions.SetLobby(s, lobby);
        sessions.SetRoom(s, room);
    }

    method Dispatch(m: Message)
      modifies this, sessions
      ensures StateOf() == Dispatched(env, old(StateOf()), m)
    {
      if env.handled(m) {
        var effects := env.handler(sessions.State(), dispatched, m);
        dispatched := dispatched + [m];
        ApplyEffects(effects);
      }
    }

    method HandleDatagramMessages(ms: seq<Message>) returns (ids: set<int>)
      modifies this, sessions
      ensures (StateOf(), ids) == Pass(env, old(StateOf()), ms, false)
    {
      ids := {};
      var skipEmbedded := false;
      for i := 0 to |ms|
        invariant Pass(env, old(StateOf()), ms, false).0 == Pass(env, StateOf(), ms[i..], skipEmbedded).0
        invariant Pass(env, old(StateOf()), ms, false).1 == ids + Pass(env, StateOf(), ms[i..], skipEmbedded).1
      {
        assert ms[i..][0] == ms[i] && ms[i..][1..] == ms[i + 1..];
        if skipEmbedded && ms[i].embedded {
          continue;
        }
        skipEmbedded := false;
        var m := Normalized(sessions.State(), ms[i]);
        ids := ids + {m.sessionId};
        var active := m.sessionId in sessions.byId;
        if BareAck(m) {
          continue;
        }
        if !m.embedded && m.Reliable() {
          ghost var before := StateOf();
          var receipt := sessions.AcceptIncoming(m.sessionId, m.sequence);
          if receipt == Hold {
            acked := acked + [m];
            log := Offered(log, m.sessionId, EpochOf(before, m.sessionId), m.sequence);
            var s := sessions.byId[m.sessionId];
            sessions.byId := sessions.byId[m.sessionId := s.(held := s.held[m.sequence := [m] + ms[i + 1..]])];
            return;
          }
          if receipt == Duplicate && active {
            acked := acked + [m];
            log := Offered(log, m.sessionId, EpochOf(before, m.sessionId), m.sequence);
            skipEmbedded := true;
            continue;
          }
          if active {
            ghost var e := EpochOf(before, m.sessionId);
            log := Offered(log, m.sessionId, e.(accepted := e.accepted + [m.sequence]), m.sequence);
          }
        }
        Dispatch(m);
      }
    }

    method PopReadyOf(ids: seq<int>) returns (popped: seq<seq<Message>>)
      modifies sessions
      ensures (sessions.State(), popped) == PopReady(old(sessions.State()), ids)
      ensures sessions.byEndpoint == old(sessions.byEndpoint)
    {
      popped := [];
      for i := 0 to |ids|
        invariant PopReady(old(sessions.State()), ids).0 == PopReady(sessions.State(), ids[i..]).0
        invariant PopReady(old(sessions.State()), ids).1 == popped + PopReady(sessions.State(), ids[i..]).1
        invariant sessions.byEndpoint == old(sessions.byEndpoint)
      {
        assert ids[i..][0] == ids[i] && ids[i..][1..] == ids[i + 1..];
        var id := ids[i];
        if id in sessions.byId && sessions.byId[id].lastIncoming + 1 in sessions.byId[id].held {
          var s := sessions.byId[id];
          popped := popped + [s.held[s.lastIncoming + 1]];
          sessions.byId := sessions.byId[id := s.(held := s.held - {s.lastIncoming + 1})];
        }
      }
      assert ids[|ids|..] == [];
      assert PopReady(sessions.State(), []) == (sessions.State(), []);
      assert popped + [] == popped;
    }

    method HandleInOrder(messages: seq<Message>)
      requires Ready(env, StateOf())
      modifies this, sessions
      ensures Ready(env, StateOf())
      ensures StateOf() == HandledInOrder(env, old(StateOf()), [messages])
    {
      var pending := [messages];
      while pending != []
        invariant Ready(env, StateOf())
        invariant HandledInOrder(env, old(StateOf()), [messages]) == HandledInOrder(env, StateOf(), pending)
        decreases TableWeight(sessions.State()) + Length(pending), |pending|
      {
        TurnShrinks(env, StateOf(), pending);
        var ids := HandleDatagramMessages(pending[0]);
        var popped := PopReadyOf(env.order(ids));
        pending := pending[1..] + popped;
      }
    }

    /** The move that the transport has to follow, if any: old address, new address, session. */
    method FollowPortChange(ms: seq<Message>, endpoint: Endpoint) returns (move: Option<(Endpoint, Endpoint, int)>)
      modifies sessions
      ensures sessions.State() == Followed(old(StateOf()), Datagram(endpoint, ms)).reg
      ensures var id := Moving(old(sessions.State()), ms, endpoint);
              && move.Some? == id.Some?
              && (id.Some? ==>
                    && id.value in old(sessions.byId)
                    && move.value == (old(sessions.byId)[id.value].endpoint, endpoint, id.value))
    {
      for i := 0 to |ms|
        invariant sessions.State() == old(sessions.State())
        invariant Moving(sessions.State(), ms, endpoint) == Moving(sessions.State(), ms[i..], endpoint)
      {
        assert ms[i..][0] == ms[i] && ms[i..][1..] == ms[i + 1..];
        var id := ms[i].sessionId;
        if id in sessions.byId && sessions.byId[id].endpoint != endpoint
           && sessions.byId[id].endpoint.host == endpoint.host {
          move := Some((sessions.byId[id].endpoint, endpoint, id));
          sessions.RebindEndpoint(id, endpoint);
          return;
        }
      }
      move := None;
    }

    method HandleDatagram(messages: seq<Message>, endpoint: Endpoint) returns (move: Option<(Endpoint, Endpoint, int)>)
      requires Ready(env, StateOf())
      modifies this, sessions
      ensures Ready(env, StateOf())
      ensures StateOf() == HandledDatagram(env, old(StateOf()), Datagram(endpoint, messages))
    {
      ghost var st := StateOf();
      FollowedKeepsReady(env, st, Datagram(endpoint, messages));
      move := FollowPortChange(messages, endpoint);
      assert StateOf() == Followed(st, Datagram(endpoint, messages));
      HandleInOrder(messages);
    }
  }
}
