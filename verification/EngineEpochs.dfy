/**
  Exact reassembly in every run of the engine, whatever arrives and whatever the
  handlers do: each live session has accepted, in order and once each, the
  maximal contiguous run of what its current epoch was offered, and holds
  exactly the rest.
 */
module EngineEpochs {
  import opened Snap
  import opened Receiver
  import opened Sessions
  import opened Engine

  // The invariant, while released datagrams are still queued.

  predicate Heads(d: seq<Message>, id: int, n: int) {
    d != [] && Windowed(d[0]) && d[0].sessionId == id && d[0].sequence == n
  }

  /** Packet `n` of session `id` heads a queued datagram. */
  predicate Queued(queue: seq<seq<Message>>, id: int, n: int) {
    exists i :: 0 <= i < |queue| && Heads(queue[i], id, n)
  }

  /** What was offered from the base on is accepted, held, or queued; and nothing else is accepted or held. */
  ghost predicate Accounted(s: Session, e: Epoch, queue: seq<seq<Message>>, id: int) {
    if e.accepted == [] then e.offered == {}
    else
      && (forall n :: e.accepted[0] <= n <= s.lastIncoming || n in s.held ==> n in e.offered)
      && (forall n :: n in e.offered && n >= e.accepted[0] ==>
            n <= s.lastIncoming || n in s.held || Queued(queue, id, n))
  }

  ghost predicate AllAccounted(st: State, queue: seq<seq<Message>>) {
    forall id :: id in st.reg.byId ==> Accounted(st.reg.byId[id], EpochOf(st, id), queue, id)
  }

  ghost predicate Kept(st: State, busy: set<int>, queue: seq<seq<Message>>) {
    TableInv(st.reg, busy) && LogInv(st) && AllAccounted(st, queue)
  }

  lemma QueueGrows(st: State, queue: seq<seq<Message>>, more: seq<seq<Message>>)
    requires AllAccounted(st, queue)
    ensures AllAccounted(st, queue + more) && AllAccounted(st, more + queue)
  {
    forall id, n | Queued(queue, id, n) ensures Queued(queue + more, id, n) && Queued(more + queue, id, n) {
      var i :| 0 <= i < |queue| && Heads(queue[i], id, n);
      assert (queue + more)[i] == queue[i] && (more + queue)[|more| + i] == queue[i];
    }
  }

  // Handlers.

  lemma EffectAccounts(st: State, e: Effect, busy: set<int>, queue: seq<seq<Message>>)
    requires Kept(st, busy, queue)
    ensures Kept(Applied(st, e), busy, queue)
  {
    AppliedKeepsTables(st, e, busy);
    EffectSpares(st, e);
    var st' := Applied(st, e);
    forall id | id in st'.reg.byId ensures Accounted(st'.reg.byId[id], EpochOf(st', id), queue, id) {
      assert SameEpoch(st, st', id) || EpochOf(st', id) == NO_EPOCH;
    }
  }

  ghost predicate SameEpoch(st: State, st': State, id: int) {
    && id in st.reg.byId && id in st'.reg.byId
    && st'.reg.byId[id].held == st.reg.byId[id].held && st'.reg.byId[id].lastIncoming == st.reg.byId[id].lastIncoming
    && EpochOf(st', id) == EpochOf(st, id)
  }

  /** A handler leaves a session's epoch alone or starts a new one. */
  lemma EffectSpares(st: State, e: Effect)
    ensures forall id :: id in Applied(st, e).reg.byId ==>
              SameEpoch(st, Applied(st, e), id) || EpochOf(Applied(st, e), id) == NO_EPOCH
  {
  }

  lemma {:induction false} EffectsAccount(st: State, effects: seq<Effect>, busy: set<int>, queue: seq<seq<Message>>)
    requires Kept(st, busy, queue)
    ensures Kept(AppliedAll(st, effects), busy, queue)
    decreases |effects|
  {
    if effects != [] {
      EffectAccounts(st, effects[0], busy, queue);
      EffectsAccount(Applied(st, effects[0]), effects[1..], busy, queue);
    }
  }

  lemma DispatchAccounts(env: Env, st: State, m: Message, busy: set<int>, queue: seq<seq<Message>>)
    requires Kept(st, busy, queue)
    ensures Kept(Dispatched(env, st, m), busy, queue)
  {
    if env.handled(m) {
      EffectsAccount(st.(dispatched := st.dispatched + [m]), env.handler(st.reg, st.dispatched, m), busy, queue);
    }
  }

  // The window: one packet is offered.

  /** What `Pass` does with a windowed packet of a live session before any dispatch. */
  function Received(st: State, m: Message, datagram: seq<Message>): State
    requires m.sessionId in st.reg.byId
  {
    match ReceiptFor(st.reg, m)
    case Deliver => AcceptedPacket(st, m)
    case Hold => HeldPacket(st, m, datagram)
    case Duplicate => RepeatedPacket(st, m)
  }

  predicate Settled(st: State, id: int, n: int) {
    id in st.reg.byId ==>
      var accepted := EpochOf(st, id).accepted;
      accepted == [] || n < accepted[0] || n <= st.reg.byId[id].lastIncoming || n in st.reg.byId[id].held
  }

  /** A queued datagram's own head is settled by offering it again. */
  lemma OfferAccounts(st: State, m: Message, datagram: seq<Message>, busy: set<int>, queue: seq<seq<Message>>)
    requires Kept(st, busy, queue) && Windowed(m) && m.sessionId in st.reg.byId
    ensures AllAccounted(Received(st, m, datagram), queue)
    ensures Settled(Received(st, m, datagram), m.sessionId, m.sequence)
  {
    var id := m.sessionId;
    var st' := Received(st, m, datagram);
    var s, e, s', e' := st.reg.byId[id], EpochOf(st, id), st'.reg.byId[id], EpochOf(st', id);
    assert forall k :: 0 <= k < |e.accepted| ==> e.accepted[k] == s.lastIncoming - |e.accepted| + 1 + k;
    assert WellHeld(s, id);
    assert Accounted(s', e', queue, id);
    forall x | x in st'.reg.byId && x != id ensures Accounted(st'.reg.byId[x], EpochOf(st', x), queue, x) {
      assert Accounted(st.reg.byId[x], EpochOf(st, x), queue, x);
    }
  }

  /** The datagram leaves the queue once its head is settled. */
  lemma HeadLeavesQueue(st: State, d: seq<Message>, queue: seq<seq<Message>>)
    requires AllAccounted(st, [d] + queue)
    requires d != [] && Windowed(d[0]) ==> Settled(st, d[0].sessionId, d[0].sequence)
    ensures AllAccounted(st, queue)
  {
    forall id | id in st.reg.byId ensures Accounted(st.reg.byId[id], EpochOf(st, id), queue, id) {
      assert Accounted(st.reg.byId[id], EpochOf(st, id), [d] + queue, id);
      forall n | Queued([d] + queue, id, n) ensures Heads(d, id, n) || Queued(queue, id, n) {
        var i :| 0 <= i < |[d] + queue| && Heads(([d] + queue)[i], id, n);
        if i > 0 { assert ([d] + queue)[i] == queue[i - 1]; }
      }
    }
  }

  // One pass, one turn, the loop.

  predicate Windows(st: State, m: Message) {
    Windowed(m) && m.sessionId in st.reg.byId
  }

  lemma {:induction false} PassAccounts(
    env: Env, st: State, ms: seq<Message>, skip: bool, busy: set<int>, queue: seq<seq<Message>>)
    requires Kept(st, busy, queue)
    ensures AllAccounted(Pass(env, st, ms, skip).0, queue)
    decreases |ms|, 1
  {
    if ms != [] {
      if skip && ms[0].embedded {
        PassAccounts(env, st, ms[1..], true, busy, queue);
      } else {
        var m := Normalized(st.reg, ms[0]);
        if Windows(st, m) { OfferAccounts(st, m, [m] + ms[1..], busy, queue); }
        OfferedPassAccounts(env, st, ms, skip, busy, queue);
      }
    }
  }

  /** A pass whose first message is accounted for once its window has seen it. */
  lemma {:induction false} OfferedPassAccounts(
    env: Env, st: State, ms: seq<Message>, skip: bool, busy: set<int>, queue: seq<seq<Message>>)
    requires TableInv(st.reg, busy) && LogInv(st) && ms != [] && (skip ==> !ms[0].embedded)
    requires var m := Normalized(st.reg, ms[0]);
             AllAccounted(if Windows(st, m) then Received(st, m, [m] + ms[1..]) else st, queue)
    ensures AllAccounted(Pass(env, st, ms, skip).0, queue)
    decreases |ms|, 0
  {
    var m := Normalized(st.reg, ms[0]);
    if BareAck(m) {
      PassAccounts(env, st, ms[1..], false, busy, queue);
    } else if Windowed(m) && ReceiptFor(st.reg, m) == Hold {
    } else if ReceiptFor(st.reg, m) == Duplicate && Windows(st, m) {
      PassAccounts(env, RepeatedPacket(st, m), ms[1..], true, busy, queue);
    } else {
      var st1 := if Windows(st, m) then AcceptedPacket(st, m) else st;
      if Windows(st, m) { AcceptKeeps(st, m, busy); } else { MoreMayBeBusy(st, m.sessionId, busy); }
      DispatchAccounts(env, st1, m, busy + {m.sessionId}, queue);
      PassAccounts(env, Dispatched(env, st1, m), ms[1..], false, busy + {m.sessionId}, queue);
    }
  }

  /** Handling the datagram at the front accounts for everything without it. */
  lemma FrontPassAccounts(env: Env, st: State, d: seq<Message>, queue: seq<seq<Message>>)
    requires Kept(st, {}, [d] + queue)
    ensures AllAccounted(Pass(env, st, d, false).0, queue)
  {
    if d != [] && Windows(st, d[0]) {
      assert Normalized(st.reg, d[0]) == d[0];
      OfferAccounts(st, d[0], [d[0]] + d[1..], {}, [d] + queue);
      HeadLeavesQueue(Received(st, d[0], [d[0]] + d[1..]), d, queue);
      OfferedPassAccounts(env, st, d, false, {}, queue);
    } else {
      HeadLeavesQueue(st, d, queue);
      PassAccounts(env, st, d, false, {}, queue);
    }
  }

  predicate Releasable(reg: Registry, id: int) {
    id in reg.byId && reg.byId[id].lastIncoming + 1 in reg.byId[id].held
  }

  function Front(reg: Registry, id: int): seq<Message>
    requires Releasable(reg, id)
  {
    reg.byId[id].held[reg.byId[id].lastIncoming + 1]
  }

  lemma PopReadyStep(reg: Registry, ids: seq<int>, queue: seq<seq<Message>>)
    requires ids != []
    ensures if Releasable(reg, ids[0]) then
              && PopReady(reg, ids).0 == PopReady(PopOne(reg, ids[0]), ids[1..]).0
              && queue + PopReady(reg, ids).1 == queue + [Front(reg, ids[0])]
                  + PopReady(PopOne(reg, ids[0]), ids[1..]).1
            else PopReady(reg, ids) == PopReady(reg, ids[1..])
  {
  }

  /** What is released goes to the end of the queue. */
  lemma {:induction false} ReleaseAccounts(st: State, ids: seq<int>, busy: set<int>, queue: seq<seq<Message>>)
    requires Kept(st, busy, queue)
    ensures AllAccounted(st.(reg := PopReady(st.reg, ids).0), queue + PopReady(st.reg, ids).1)
    decreases |ids|
  {
    if ids == [] {
      assert queue + [] == queue;
    } else {
      hide *;
      PopReadyStep(st.reg, ids, queue);
      if Releasable(st.reg, ids[0]) {
        ReleaseOneAccounts(st, ids[0], busy, queue);
        ReleaseAccounts(st.(reg := PopOne(st.reg, ids[0])), ids[1..], busy, queue + [Front(st.reg, ids[0])]);
      } else {
        ReleaseAccounts(st, ids[1..], busy, queue);
      }
    }
  }

  lemma ReleaseOneAccounts(st: State, id: int, busy: set<int>, queue: seq<seq<Message>>)
    requires Kept(st, busy, queue) && Releasable(st.reg, id)
    ensures id in st.reg.byId
    ensures Kept(st.(reg := PopOne(st.reg, id)), busy, queue + [Front(st.reg, id)])
  {
    assert WellHeld(st.reg.byId[id], id);
    hide AllAccounted, TableInv, LogInv;
    PopOneKeepsTables(st, id, busy);
    QueueGrows(st, queue, [Front(st.reg, id)]);
    ReleaseOneQueued(st, id, queue);
  }

  lemma PopOneKeepsTables(st: State, id: int, busy: set<int>)
    requires TableInv(st.reg, busy) && LogInv(st) && id in st.reg.byId
    ensures TableInv(PopOne(st.reg, id), busy) && LogInv(st.(reg := PopOne(st.reg, id)))
  {
    var s := st.reg.byId[id];
    assert WellHeld(s, id) && (id !in busy ==> Drained(s)) && s.sessionId == id;
    hide TableInv, LogInv;
    UpdateKeepsTables(st.reg, id, s.(held := s.held - {s.lastIncoming + 1}), busy);
    PopOneKeepsLog(st, id);
  }

  lemma PopOneKeepsLog(st: State, id: int)
    requires LogInv(st) && id in st.reg.byId
    ensures LogInv(st.(reg := PopOne(st.reg, id)))
  {
    assert SameProgress(st.reg, PopOne(st.reg, id));
    hide LogInv;
    SameLog(st, st.(reg := PopOne(st.reg, id)));
  }

  lemma ReleaseOneQueued(st: State, id: int, queue: seq<seq<Message>>)
    requires Releasable(st.reg, id) && WellHeld(st.reg.byId[id], id) && AllAccounted(st, queue + [Front(st.reg, id)])
    ensures AllAccounted(st.(reg := PopOne(st.reg, id)), queue + [Front(st.reg, id)])
  {
    hide Accounted, WellHeld;
    ReleasedIsQueued(st.reg.byId[id], EpochOf(st, id), queue, id);
  }

  lemma ReleasedIsQueued(s: Session, e: Epoch, queue: seq<seq<Message>>, id: int)
    requires WellHeld(s, id) && s.lastIncoming + 1 in s.held
    requires Accounted(s, e, queue + [s.held[s.lastIncoming + 1]], id)
    ensures Accounted(s.(held := s.held - {s.lastIncoming + 1}), e, queue + [s.held[s.lastIncoming + 1]], id)
  {
    var n := s.lastIncoming + 1;
    assert Heads((queue + [s.held[n]])[|queue|], id, n);
  }

  lemma TurnAccounts(env: Env, st: State, queue: seq<seq<Message>>)
    requires queue != [] && Ready(env, st) && AllAccounted(st, queue)
    ensures var (st', queue') := Turn(env, st, queue); AllAccounted(st', queue')
  {
    var (st1, ids) := Pass(env, st, queue[0], false);
    assert queue == [queue[0]] + queue[1..];
    FrontPassAccounts(env, st, queue[0], queue[1..]);
    PassKeeps(env, st, queue[0], false, {});
    ReleaseAccounts(st1, env.order(ids), {} + ids, queue[1..]);
  }

  lemma {:induction false} DrainAccounts(env: Env, st: State, queue: seq<seq<Message>>)
    requires Ready(env, st) && AllAccounted(st, queue)
    ensures AllAccounted(HandledInOrder(env, st, queue), [])
    decreases TableWeight(st.reg) + Length(queue), |queue|
  {
    if queue != [] {
      TurnShrinks(env, st, queue);
      TurnAccounts(env, st, queue);
      var (st', queue') := Turn(env, st, queue);
      DrainAccounts(env, st', queue');
    }
  }

  lemma DatagramAccounts(env: Env, st: State, d: Datagram)
    requires Ready(env, st) && AllAccounted(st, [])
    ensures AllAccounted(HandledDatagram(env, st, d), [])
  {
    FollowedKeepsReady(env, st, d);
    var st1 := Followed(st, d);
    var id := Moving(st.reg, d.messages, d.endpoint);
    if id.Some? { EffectAccounts(st, RebindEffect(id.value, d.endpoint), {}, []); }
    QueueGrows(st1, [], [d.messages]);
    assert [] + [d.messages] == [d.messages];
    DrainAccounts(env, st1, [d.messages]);
  }

  lemma InputAccounts(env: Env, st: State, input: Input)
    requires Ready(env, st) && AllAccounted(st, [])
    ensures AllAccounted(HandledInput(env, st, input), [])
  {
    match input
    case Arrives(d) => DatagramAccounts(env, st, d);
    case Does(effects) => EffectsAccount(st, effects, {}, []);
  }

  // Whole runs.

  lemma StartIsReady(env: Env)
    requires Enumerates(env.order)
    ensures Ready(env, START) && AllAccounted(START, [])
  {
  }

  /**
    The numbers a session has accepted in its epoch are the maximal contiguous
    run, from the first one offered, of those it was offered; it holds exactly
    the later ones, each with its own packet in front.
   */
  ghost predicate ExactEpoch(s: Session, e: Epoch, id: int) {
    if e.accepted == [] then e.offered == {} && s.held == map[]
    else
      var base := e.accepted[0];
      && |e.accepted| == s.lastIncoming - base + 1
      && (forall k :: 0 <= k < |e.accepted| ==> e.accepted[k] == base + k)
      && (forall n :: base <= n <= s.lastIncoming ==> n in e.offered)
      && s.lastIncoming + 1 !in e.offered
      && s.held.Keys == (set n | n in e.offered && n > s.lastIncoming)
      && (forall n :: n in s.held ==> Heads(s.held[n], id, n))
  }

  lemma AccountedIsExact(s: Session, e: Epoch, id: int)
    requires WellHeld(s, id) && Drained(s) && Accounted(s, e, [], id)
    requires if e.accepted == [] then s.lastIncoming == -1 else s.lastIncoming >= 0
    requires forall k :: 0 <= k < |e.accepted| ==> e.accepted[k] == s.lastIncoming - |e.accepted| + 1 + k
    ensures ExactEpoch(s, e, id)
  {
    if e.accepted == [] {
      assert forall n :: n in s.held ==> n > s.lastIncoming >= 0;
      assert s.held == map[];
    } else {
      assert e.accepted[|e.accepted| - 1] == s.lastIncoming;
      assert forall n :: !Queued([], id, n);
    }
  }

  lemma {:induction false} RunAccounts(env: Env, inputs: seq<Input>)
    requires Enumerates(env.order)
    ensures Ready(env, START) && AllAccounted(HandleAll(env, START, inputs), [])
  {
    StartIsReady(env);
    if inputs != [] {
      var n := |inputs| - 1;
      RunAccounts(env, inputs[..n]);
      InputAccounts(env, HandleAll(env, START, inputs[..n]), inputs[n]);
    }
  }

  /**
    Exact reassembly in every run: any datagrams, of any sessions, in any
    shape and order, with loss and duplicates, any handlers, and whatever ticks
    and timeouts end in between.
   */
  lemma EveryEpochIsExact(env: Env, inputs: seq<Input>)
    requires Enumerates(env.order)
    ensures Ready(env, START)
    ensures var st := HandleAll(env, START, inputs);
            forall id :: id in st.reg.byId ==> ExactEpoch(st.reg.byId[id], EpochOf(st, id), id)
  {
    RunAccounts(env, inputs);
    var st := HandleAll(env, START, inputs);
    forall id | id in st.reg.byId ensures ExactEpoch(st.reg.byId[id], EpochOf(st, id), id) {
      AccountedIsExact(st.reg.byId[id], EpochOf(st, id), id);
    }
  }
}
