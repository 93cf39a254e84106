/**
  What one client's bundles dispatch: its datagrams arrive in any order, with
  loss and duplicates, among those of all other sessions, and the handlers do
  as they like with everything but this client's epoch.
 */
module EngineReassembly {
  import opened Snap
  import opened Receiver
  import opened Sessions
  import opened Login
  import opened MapSum
  import opened Engine

  // Whose datagram it is.

  /** One datagram of session `id`: a top-level reliable packet, numbered `n`, and its embedded children. */
  predicate Bundle(ms: seq<Message>, id: int, n: int) {
    && ms != [] && Windowed(ms[0]) && ms[0].sequence == n
    && (forall i :: 0 <= i < |ms| ==> ms[i].sessionId == id)
    && (forall i :: 1 <= i < |ms| ==> ms[i].embedded)
  }

  /** The session is live, and its client sends from one of `ports`. */
  ghost predicate At(reg: Registry, id: int, ports: set<Endpoint>) {
    Sound(reg) && id in reg.byId && reg.byId[id].endpoint in ports
  }

  /**
    The effect leaves the epoch of session `id` alone: it does not restart, end, replace
    or push it out, or take it elsewhere.
   */
  predicate Gentle(reg: Registry, e: Effect, id: int, ports: set<Endpoint>) {
    match e
    case RestartEffect(s) => s != id
    case EndEffect(s) => s != id
    case AdoptEffect(h) => h.sessionId != id && Superseded(reg, h) != Some(id)
    case RebindEffect(s, endpoint) => s != id || endpoint in ports
    case PlaceEffect(_, _, _) => true
  }

  predicate GentleAll(st: State, effects: seq<Effect>, id: int, ports: set<Endpoint>)
    decreases |effects|
  {
    effects == []
    || (Gentle(st.reg, effects[0], id, ports) && GentleAll(Applied(st, effects[0]), effects[1..], id, ports))
  }

  ghost predicate GentleHandling(env: Env, st: State, m: Message, id: int, ports: set<Endpoint>) {
    At(st.reg, id, ports) ==>
      GentleAll(st.(dispatched := st.dispatched + [m]), env.handler(st.reg, st.dispatched, m), id, ports)
  }

  /** The same message, or one whose stale session id was resolved to another session's. */
  predicate Readdressed(m: Message, m': Message, id: int) {
    m' == m.(sessionId := m'.sessionId) && (m'.sessionId == id <==> m.sessionId == id)
  }

  /** Handling the message is gentle, in whatever state with the client at its ports. */
  ghost predicate Spares(env: Env, m: Message, id: int, ports: set<Endpoint>) {
    forall st, m' :: Readdressed(m, m', id) ==> GentleHandling(env, st, m', id, ports)
  }

  ghost predicate Own(env: Env, ms: seq<Message>, id: int, n: int, ports: set<Endpoint>) {
    Bundle(ms, id, n) && forall m :: m in ms ==> Spares(env, m, id, ports)
  }

  /** The client's bare ACKs and unreliable messages. */
  ghost predicate Light(env: Env, ms: seq<Message>, id: int, ports: set<Endpoint>) {
    forall m :: m in ms ==> m.sessionId == id && !Windowed(m) && !m.embedded && Spares(env, m, id, ports)
  }

  /** Anything else from anywhere else: any shape, any sessions. */
  ghost predicate Foreign(env: Env, ms: seq<Message>, id: int, ports: set<Endpoint>) {
    forall m :: m in ms ==> m.sessionId != id && m.endpoint !in ports && Spares(env, m, id, ports)
  }

  ghost predicate ForeignHeld(env: Env, reg: Registry, id: int, ports: set<Endpoint>) {
    forall x, n :: x in reg.byId && x != id && n in reg.byId[x].held ==> Foreign(env, reg.byId[x].held[n], id, ports)
  }

  // What stays as it is.

  ghost predicate Steady(env: Env, a: State, b: State, id: int, ports: set<Endpoint>) {
    && At(a.reg, id, ports) && At(b.reg, id, ports)
    && b.reg.byId[id].lastIncoming == a.reg.byId[id].lastIncoming && b.reg.byId[id].held == a.reg.byId[id].held
    && (ForeignHeld(env, a.reg, id, ports) ==> ForeignHeld(env, b.reg, id, ports))
  }

  /** Nothing is dispatched and nothing acknowledged. */
  predicate SameOutput(a: State, b: State) {
    b.dispatched == a.dispatched && b.acked == a.acked
  }

  lemma GentleOneIsSteady(env: Env, st: State, e: Effect, id: int, ports: set<Endpoint>)
    requires At(st.reg, id, ports) && Gentle(st.reg, e, id, ports)
    ensures Steady(env, st, Applied(st, e), id, ports) && SameOutput(st, Applied(st, e))
  {
    EffectOnlyDrops(st, e);
    GentleKeepsWindow(st, e, id, ports);
    hide Applied, Foreign;
  }

  lemma EffectOnlyDrops(st: State, e: Effect)
    ensures OnlyDrops(st.reg, Applied(st, e).reg) && SameOutput(st, Applied(st, e))
  {
  }

  lemma GentleKeepsWindow(st: State, e: Effect, id: int, ports: set<Endpoint>)
    requires At(st.reg, id, ports) && Gentle(st.reg, e, id, ports)
    ensures var reg := Applied(st, e).reg;
            && At(reg, id, ports)
            && reg.byId[id].lastIncoming == st.reg.byId[id].lastIncoming && reg.byId[id].held == st.reg.byId[id].held
  {
    match e
    case AdoptEffect(h) => GentleAdoptionKeepsWindow(st, h, id, ports);
    case _ =>
  }

  lemma GentleAdoptionKeepsWindow(st: State, h: Handoff, id: int, ports: set<Endpoint>)
    requires At(st.reg, id, ports) && h.sessionId != id && Superseded(st.reg, h) != Some(id)
    ensures At(Adopted(st.reg, h), id, ports) && Adopted(st.reg, h).byId[id] == st.reg.byId[id]
  {
  }

  /** Nothing is held that was not held before. */
  ghost predicate OnlyDrops(a: Registry, b: Registry) {
    forall x :: x in b.byId ==> b.byId[x].held == map[] || (x in a.byId && b.byId[x].held == a.byId[x].held)
  }

  lemma {:induction false} GentleIsSteady(env: Env, st: State, effects: seq<Effect>, id: int, ports: set<Endpoint>)
    requires At(st.reg, id, ports) && GentleAll(st, effects, id, ports)
    ensures Steady(env, st, AppliedAll(st, effects), id, ports) && SameOutput(st, AppliedAll(st, effects))
    decreases |effects|
  {
    if effects != [] {
      GentleOneIsSteady(env, st, effects[0], id, ports);
      GentleIsSteady(env, Applied(st, effects[0]), effects[1..], id, ports);
    }
  }

  lemma DispatchIsSteady(env: Env, st: State, m: Message, m': Message, id: int, ports: set<Endpoint>)
    requires At(st.reg, id, ports) && Spares(env, m, id, ports) && Readdressed(m, m', id)
    ensures Steady(env, st, Dispatched(env, st, m'), id, ports)
    ensures Dispatched(env, st, m').acked == st.acked
    ensures Dispatched(env, st, m').dispatched == st.dispatched + if env.handled(m') then [m'] else []
  {
    assert GentleHandling(env, st, m', id, ports);
    if env.handled(m') {
      GentleIsSteady(env, st.(dispatched := st.dispatched + [m']), env.handler(st.reg, st.dispatched, m'), id, ports);
    }
  }

  // What is dispatched for the session's bundles.

  predicate Ran(m: Message, id: int) {
    m.sessionId == id && (Windowed(m) || m.embedded)
  }

  function Of(ms: seq<Message>, id: int): seq<Message> {
    if ms == [] then []
    else Of(ms[..|ms| - 1], id) + if Ran(ms[|ms| - 1], id) then [ms[|ms| - 1]] else []
  }

  lemma {:induction false} OfAppend(a: seq<Message>, b: seq<Message>, id: int)
    ensures Of(a + b, id) == Of(a, id) + Of(b, id)
    decreases |b|
  {
    if b == [] {
      assert a + b == a;
    } else {
      OfAppend(a, b[..|b| - 1], id);
      assert (a + b)[..|a + b| - 1] == a + b[..|b| - 1];
    }
  }

  lemma OfOther(a: seq<Message>, b: seq<Message>, m: Message, id: int)
    requires !Ran(m, id) && (b == [m] || b == [])
    ensures Of(a + b, id) == Of(a, id)
  {
    OfAppend(a, b, id);
    assert [m][..0] == [];
  }

  lemma {:induction false} OfOwn(ms: seq<Message>, id: int)
    requires forall m :: m in ms ==> Ran(m, id)
    ensures Of(ms, id) == ms
  {
    if ms != [] {
      OfOwn(ms[..|ms| - 1], id);
      assert ms == ms[..|ms| - 1] + [ms[|ms| - 1]];
    }
  }

  /** What running a datagram's messages dispatches. */
  function Run(env: Env, ms: seq<Message>): (r: seq<Message>)
    ensures forall m :: m in r ==> m in ms
  {
    if ms == [] then []
    else (if !BareAck(ms[0]) && env.handled(ms[0]) then [ms[0]] else []) + Run(env, ms[1..])
  }

  function RunAll(env: Env, datagrams: seq<seq<Message>>): seq<Message> {
    if datagrams == [] then []
    else RunAll(env, datagrams[..|datagrams| - 1]) + Run(env, datagrams[|datagrams| - 1])
  }

  lemma RunAllSnoc(env: Env, start: seq<Message>, datagrams: seq<seq<Message>>, d: seq<Message>)
    ensures start + RunAll(env, datagrams + [d]) == start + RunAll(env, datagrams) + Run(env, d)
  {
    assert (datagrams + [d])[..|datagrams|] == datagrams;
  }

  lemma OwnRunIsOf(env: Env, before: seq<Message>, ms: seq<Message>, id: int, n: int)
    requires Bundle(ms, id, n)
    ensures Of(before + Run(env, ms), id) == Of(before, id) + Run(env, ms)
  {
    forall m | m in Run(env, ms) ensures Ran(m, id) {
      var i :| 0 <= i < |ms| && ms[i] == m;
    }
    OfAppend(before, Run(env, ms), id);
    OfOwn(Run(env, ms), id);
  }

  // What is acknowledged of them.

  /** The packets of the session that were answered with a bare ACK, in order. */
  function AcksOf(acked: seq<Message>, id: int): seq<Message> {
    if acked == [] then []
    else
      var m := acked[|acked| - 1];
      AcksOf(acked[..|acked| - 1], id) + if m.sessionId == id then [m] else []
  }

  lemma AcksSnoc(acked: seq<Message>, m: Message, id: int)
    ensures AcksOf(acked + [m], id) == AcksOf(acked, id) + if m.sessionId == id then [m] else []
  {
    assert (acked + [m])[..|acked|] == acked;
  }

  predicate SameOutputOf(a: State, b: State, id: int) {
    Of(b.dispatched, id) == Of(a.dispatched, id) && AcksOf(b.acked, id) == AcksOf(a.acked, id)
  }

  // Other sessions' datagrams.

  lemma ForeignStaysForeign(st: State, m: Message, id: int, ports: set<Endpoint>)
    requires At(st.reg, id, ports) && m.sessionId != id && m.endpoint !in ports
    ensures Normalized(st.reg, m).sessionId != id && Readdressed(m, Normalized(st.reg, m), id)
  {
  }

  lemma ReaddressedIsForeign(env: Env, m: Message, m': Message, id: int, ports: set<Endpoint>)
    requires m.sessionId != id && m.endpoint !in ports && Spares(env, m, id, ports) && Readdressed(m, m', id)
    ensures m'.sessionId != id && m'.endpoint !in ports && Spares(env, m', id, ports)
  {
    forall st, m'' | Readdressed(m', m'', id) ensures GentleHandling(env, st, m'', id, ports) {
      assert Readdressed(m, m'', id);
    }
  }

  /** Another session's packet goes into that session's own window. */
  lemma ForeignPacketIsSteady(env: Env, st: State, m: Message, datagram: seq<Message>, id: int, ports: set<Endpoint>)
    requires At(st.reg, id, ports) && m.sessionId in st.reg.byId && m.sessionId != id
    ensures Steady(env, st, AcceptedPacket(st, m), id, ports)
    ensures Foreign(env, datagram, id, ports) ==> Steady(env, st, HeldPacket(st, m, datagram), id, ports)
    ensures Steady(env, st, RepeatedPacket(st, m), id, ports)
    ensures SameOutputOf(st, HeldPacket(st, m, datagram), id) && SameOutputOf(st, RepeatedPacket(st, m), id)
  {
    AcksSnoc(st.acked, m, id);
  }

  lemma SteadyIsTransitive(env: Env, a: State, b: State, c: State, id: int, ports: set<Endpoint>)
    requires Steady(env, a, b, id, ports) && Steady(env, b, c, id, ports)
    ensures Steady(env, a, c, id, ports)
  {
  }

  lemma {:induction false} ForeignPass(env: Env, st: State, ms: seq<Message>, skip: bool, id: int, ports: set<Endpoint>)
    requires At(st.reg, id, ports) && Foreign(env, ms, id, ports)
    ensures var (st', ids) := Pass(env, st, ms, skip);
            && Steady(env, st, st', id, ports) && id !in ids && SameOutputOf(st, st', id)
    decreases |ms|, 1
  {
    if ms != [] {
      if skip && ms[0].embedded {
        ForeignPass(env, st, ms[1..], true, id, ports);
      } else {
        ForeignHeadPass(env, st, ms, skip, id, ports);
      }
    }
  }

  lemma {:induction false} ForeignHeadPass(
    env: Env, st: State, ms: seq<Message>, skip: bool, id: int, ports: set<Endpoint>)
    requires At(st.reg, id, ports) && Foreign(env, ms, id, ports) && ms != [] && (skip ==> !ms[0].embedded)
    ensures var (st', ids) := Pass(env, st, ms, skip);
            && Steady(env, st, st', id, ports) && id !in ids && SameOutputOf(st, st', id)
    decreases |ms|, 0
  {
    var m := Normalized(st.reg, ms[0]);
    var live := m.sessionId in st.reg.byId;
    assert ms[0] in ms;
    ForeignStaysForeign(st, ms[0], id, ports);
    ReaddressedIsForeign(env, ms[0], m, id, ports);
    if live { ForeignPacketIsSteady(env, st, m, [m] + ms[1..], id, ports); }
    if BareAck(m) {
      ForeignPass(env, st, ms[1..], false, id, ports);
    } else if Windowed(m) && ReceiptFor(st.reg, m) == Hold {
    } else if Windowed(m) && ReceiptFor(st.reg, m) == Duplicate && live {
      ForeignPass(env, RepeatedPacket(st, m), ms[1..], true, id, ports);
      SteadyIsTransitive(env, st, RepeatedPacket(st, m), Pass(env, st, ms, skip).0, id, ports);
    } else {
      var st1 := if Windowed(m) && live then AcceptedPacket(st, m) else st;
      var st2 := Dispatched(env, st1, m);
      DispatchIsSteady(env, st1, ms[0], m, id, ports);
      OfOther(st1.dispatched, if env.handled(m) then [m] else [], m, id);
      ForeignPass(env, st2, ms[1..], false, id, ports);
      SteadyIsTransitive(env, st, st1, st2, id, ports);
      SteadyIsTransitive(env, st, st2, Pass(env, st, ms, skip).0, id, ports);
    }
  }

  ghost predicate AllForeign(env: Env, queue: seq<seq<Message>>, id: int, ports: set<Endpoint>) {
    forall d :: d in queue ==> Foreign(env, d, id, ports)
  }

  lemma {:induction false} ForeignRelease(env: Env, st: State, ids: seq<int>, id: int, ports: set<Endpoint>)
    requires At(st.reg, id, ports) && id !in ids && ForeignHeld(env, st.reg, id, ports)
    ensures var (reg, popped) := PopReady(st.reg, ids);
            Steady(env, st, st.(reg := reg), id, ports) && AllForeign(env, popped, id, ports)
    decreases |ids|
  {
    if ids != [] {
      var x := ids[0];
      if x in st.reg.byId && st.reg.byId[x].lastIncoming + 1 in st.reg.byId[x].held {
        var st1 := st.(reg := PopOne(st.reg, x));
        assert Steady(env, st, st1, id, ports);
        ForeignRelease(env, st1, ids[1..], id, ports);
        SteadyIsTransitive(env, st, st1, st.(reg := PopReady(st.reg, ids).0), id, ports);
      } else {
        ForeignRelease(env, st, ids[1..], id, ports);
      }
    }
  }

  lemma ForeignTurn(env: Env, st: State, queue: seq<seq<Message>>, id: int, ports: set<Endpoint>)
    requires Ready(env, st) && queue != [] && AllForeign(env, queue, id, ports)
    requires At(st.reg, id, ports) && ForeignHeld(env, st.reg, id, ports)
    ensures var (st', queue') := Turn(env, st, queue);
            && Steady(env, st, st', id, ports) && AllForeign(env, queue', id, ports)
            && SameOutputOf(st, st', id)
  {
    var (st1, ids) := Pass(env, st, queue[0], false);
    assert queue[0] in queue;
    ForeignPass(env, st, queue[0], false, id, ports);
    assert Lists(env.order(ids), ids);
    ForeignRelease(env, st1, env.order(ids), id, ports);
    SteadyIsTransitive(env, st, st1, Turn(env, st, queue).0, id, ports);
  }

  /** Other sessions' datagrams, with all they release, leave the session and what it dispatched alone. */
  lemma {:induction false} ForeignDrain(env: Env, st: State, queue: seq<seq<Message>>, id: int, ports: set<Endpoint>)
    requires Ready(env, st) && AllForeign(env, queue, id, ports)
    requires At(st.reg, id, ports) && ForeignHeld(env, st.reg, id, ports)
    ensures var st' := HandledInOrder(env, st, queue);
            Steady(env, st, st', id, ports) && SameOutputOf(st, st', id)
    decreases TableWeight(st.reg) + Length(queue), |queue|
  {
    if queue != [] {
      TurnShrinks(env, st, queue);
      ForeignTurn(env, st, queue, id, ports);
      var (st', queue') := Turn(env, st, queue);
      ForeignDrain(env, st', queue', id, ports);
      SteadyIsTransitive(env, st, st', HandledInOrder(env, st, queue), id, ports);
    }
  }

  // The session's own datagrams.

  /**
    The session's window in the state is `w`, what it dispatched since `start` is
    what `w` handed on, and `acks` were acknowledged without being dispatched.
   */
  ghost predicate Simulates(
    env: Env, st: State, id: int, ports: set<Endpoint>, w: Window<seq<Message>>, start: seq<Message>,
    acks: seq<Message>)
  {
    && At(st.reg, id, ports) && ForeignHeld(env, st.reg, id, ports)
    && st.reg.byId[id].lastIncoming == w.last
    && st.reg.byId[id].held == w.held
    && Of(st.dispatched, id) == start + RunAll(env, w.delivered)
    && AcksOf(st.acked, id) == acks
    && (forall n :: n in w.held ==> Own(env, w.held[n], id, n, ports))
  }

  lemma OwnIsNormal(st: State, m: Message, id: int)
    requires id in st.reg.byId && st.reg.byId[id].sessionId == id && m.sessionId == id
    ensures Normalized(st.reg, m) == m && Readdressed(m, m, id)
  {
  }

  /** Messages of the session that its window does not see run one after the other. */
  lemma {:induction false} PlainRun(env: Env, st: State, ms: seq<Message>, id: int, ports: set<Endpoint>)
    requires At(st.reg, id, ports)
    requires forall m :: m in ms ==> m.sessionId == id && !Windowed(m) && Spares(env, m, id, ports)
    ensures var (st', ids) := Pass(env, st, ms, false);
            && Steady(env, st, st', id, ports)
            && st'.dispatched == st.dispatched + Run(env, ms) && st'.acked == st.acked
            && ids == if ms == [] then {} else {id}
    decreases |ms|
  {
    if ms == [] {
      assert st.dispatched + [] == st.dispatched;
    } else {
      var m := ms[0];
      OwnIsNormal(st, m, id);
      if BareAck(m) {
        PlainRun(env, st, ms[1..], id, ports);
      } else {
        var st1 := Dispatched(env, st, m);
        DispatchIsSteady(env, st, m, m, id, ports);
        PlainRun(env, st1, ms[1..], id, ports);
        SteadyIsTransitive(env, st, st1, Pass(env, st1, ms[1..], false).0, id, ports);
        JoinThree(st.dispatched, if env.handled(m) then [m] else [], Run(env, ms[1..]));
      }
    }
  }

  lemma {:induction false} ChildrenSkipped(env: Env, st: State, ms: seq<Message>)
    requires forall i :: 0 <= i < |ms| ==> ms[i].embedded
    ensures Pass(env, st, ms, true) == (st, {})
    decreases |ms|
  {
    if ms != [] { ChildrenSkipped(env, st, ms[1..]); }
  }

  /** A bundle that is delivered is dispatched whole, the children after their outer packet. */
  lemma DeliverPass(env: Env, st: State, ms: seq<Message>, id: int, n: int, ports: set<Endpoint>)
    requires At(st.reg, id, ports) && Own(env, ms, id, n, ports) && ReceiptFor(st.reg, ms[0]) == Deliver
    ensures var (st', ids) := Pass(env, st, ms, false);
            && ids == {id} && Steady(env, AcceptedPacket(st, ms[0]), st', id, ports)
            && st'.dispatched == st.dispatched + Run(env, ms) && st'.acked == st.acked
  {
    var st1 := AcceptedPacket(st, ms[0]);
    var st2 := Dispatched(env, st1, ms[0]);
    OwnIsNormal(st, ms[0], id);
    DispatchIsSteady(env, st1, ms[0], ms[0], id, ports);
    PlainRun(env, st2, ms[1..], id, ports);
    SteadyIsTransitive(env, st1, st2, Pass(env, st2, ms[1..], false).0, id, ports);
    JoinThree(st.dispatched, if env.handled(ms[0]) then [ms[0]] else [], Run(env, ms[1..]));
  }

  function Unmoved(st: State, ms: seq<Message>): State
    requires ms != [] && ms[0].sessionId in st.reg.byId
  {
    if ReceiptFor(st.reg, ms[0]) == Hold then HeldPacket(st, ms[0], ms) else RepeatedPacket(st, ms[0])
  }

  /** A bundle that is held or a repeat dispatches nothing, its children included. */
  lemma OtherPass(env: Env, st: State, ms: seq<Message>, id: int, n: int, ports: set<Endpoint>)
    requires At(st.reg, id, ports) && Own(env, ms, id, n, ports) && ReceiptFor(st.reg, ms[0]) != Deliver
    ensures Pass(env, st, ms, false) == (Unmoved(st, ms), {id})
  {
    var m := ms[0];
    OwnIsNormal(st, m, id);
    if ReceiptFor(st.reg, m) == Hold {
      assert [m] + ms[1..] == ms;
    } else {
      ChildrenSkipped(env, RepeatedPacket(st, m), ms[1..]);
      assert {} + {id} == {id};
    }
  }

  lemma OnlySession(order: set<int> -> seq<int>, id: int)
    requires Enumerates(order)
    ensures order({id}) == [id]
  {
    assert Lists(order({id}), {id});
    assert |order({id})| == 1 && order({id})[0] in order({id});
  }

  lemma PopFromOne(reg: Registry, id: int)
    requires id in reg.byId
    ensures var s := reg.byId[id];
            PopReady(reg, [id]) == if s.lastIncoming + 1 in s.held
                then (PopOne(reg, id), [s.held[s.lastIncoming + 1]]) else (reg, [])
  {
    var none: seq<int> := [];
    assert [id][1..] == none;
    assert PopReady(reg, none) == (reg, []) && PopReady(PopOne(reg, id), none) == (PopOne(reg, id), []);
    var s := reg.byId[id];
    if s.lastIncoming + 1 in s.held {
      assert [s.held[s.lastIncoming + 1]] + [] == [s.held[s.lastIncoming + 1]];
    }
  }

  lemma TurnReleasesNothing(env: Env, st: State, ms: seq<Message>, id: int)
    requires Ready(env, st) && Pass(env, st, ms, false).1 == {id}
    requires var reg := Pass(env, st, ms, false).0.reg; id in reg.byId && Drained(reg.byId[id])
    ensures Turn(env, st, [ms]) == (Pass(env, st, ms, false).0, [])
  {
    hide Pass, Turn, Ready, PopReady, PopOne;
    TurnOfOne(env, st, ms, id);
    PopFromOne(Pass(env, st, ms, false).0.reg, id);
  }

  lemma TurnOfOne(env: Env, st: State, ms: seq<Message>, id: int)
    requires Ready(env, st) && Pass(env, st, ms, false).1 == {id}
    ensures var st1 := Pass(env, st, ms, false).0;
            var (reg, popped) := PopReady(st1.reg, [id]);
            Turn(env, st, [ms]) == (st1.(reg := reg), popped)
  {
    OnlySession(env.order, id);
    hide Pass, TableInv, LogInv, PopReady;
    assert [ms][1..] + PopReady(Pass(env, st, ms, false).0.reg, [id]).1
        == PopReady(Pass(env, st, ms, false).0.reg, [id]).1;
  }

  lemma EmptyTurn(env: Env, st: State)
    requires Ready(env, st)
    ensures Turn(env, st, [[]]) == (Pass(env, st, [], false).0, [])
  {
    assert Lists(env.order({}), {});
    assert env.order({}) == [];
    var none: seq<seq<Message>> := [[]];
    assert none[1..] + [] == [];
  }

  /** A turn that releases nothing is the last one. */
  lemma LastTurn(env: Env, st: State, ms: seq<Message>)
    requires Ready(env, st) && Turn(env, st, [ms]) == (Pass(env, st, ms, false).0, [])
    ensures HandledInOrder(env, st, [ms]) == Pass(env, st, ms, false).0
  {
    HandledStep(env, st, [ms]);
    HandledNothing(env, Turn(env, st, [ms]).0);
    hide HandledInOrder, Turn, Pass;
  }

  /** The turn that hands a bundle on, and what it queues. */
  lemma DeliverTurn(env: Env, st: State, ms: seq<Message>, id: int, n: int, ports: set<Endpoint>)
    requires Ready(env, st) && At(st.reg, id, ports) && ForeignHeld(env, st.reg, id, ports)
    requires Own(env, ms, id, n, ports) && ReceiptFor(st.reg, ms[0]) == Deliver
    ensures var (st', queue) := Turn(env, st, [ms]);
            var s := st.reg.byId[id];
            && At(st'.reg, id, ports) && ForeignHeld(env, st'.reg, id, ports)
            && st'.reg.byId[id].lastIncoming == n
            && st'.dispatched == st.dispatched + Run(env, ms) && st'.acked == st.acked
            && st'.reg.byId[id].held == s.held - {n + 1}
            && queue == if n + 1 in s.held then [s.held[n + 1]] else []
  {
    DeliverPassState(env, st, ms, id, n, ports);
    TurnOfOne(env, st, ms, id);
    var st1 := Pass(env, st, ms, false).0;
    var s := st.reg.byId[id];
    PopFromOne(st1.reg, id);
    PopOneIsAt(env, st1.reg, id, ports);
    hide Pass, Turn, Ready, PopReady, PopOne, ForeignHeld, Own, Run, At;
    assert n + 1 !in s.held ==> s.held - {n + 1} == s.held;
  }

  lemma DeliverPassState(env: Env, st: State, ms: seq<Message>, id: int, n: int, ports: set<Endpoint>)
    requires At(st.reg, id, ports) && ForeignHeld(env, st.reg, id, ports)
    requires Own(env, ms, id, n, ports) && ReceiptFor(st.reg, ms[0]) == Deliver
    ensures var (st', ids) := Pass(env, st, ms, false);
            && ids == {id} && At(st'.reg, id, ports) && ForeignHeld(env, st'.reg, id, ports)
            && st'.reg.byId[id].lastIncoming == n && st'.reg.byId[id].held == st.reg.byId[id].held
            && st'.dispatched == st.dispatched + Run(env, ms) && st'.acked == st.acked
  {
    DeliverPass(env, st, ms, id, n, ports);
    assert ms[0].sequence == n && ms[0].sessionId == id;
    assert ForeignHeld(env, AcceptedPacket(st, ms[0]).reg, id, ports);
    hide Pass, Foreign, Own, Run;
  }

  lemma PopOneIsAt(env: Env, reg: Registry, id: int, ports: set<Endpoint>)
    requires At(reg, id, ports) && ForeignHeld(env, reg, id, ports)
    ensures var reg', s := PopOne(reg, id), reg.byId[id];
            && At(reg', id, ports) && ForeignHeld(env, reg', id, ports)
            && reg'.byId[id].lastIncoming == s.lastIncoming && reg'.byId[id].held == s.held - {s.lastIncoming + 1}
  {
    hide Foreign;
  }

  lemma HandledStep(env: Env, st: State, queue: seq<seq<Message>>)
    requires Ready(env, st) && queue != []
    ensures Ready(env, Turn(env, st, queue).0)
    ensures HandledInOrder(env, st, queue) == HandledInOrder(env, Turn(env, st, queue).0, Turn(env, st, queue).1)
  {
    TurnShrinks(env, st, queue);
    hide Turn;
  }

  lemma HandledNothing(env: Env, st: State)
    requires Ready(env, st)
    ensures HandledInOrder(env, st, []) == st
  {
  }

  lemma DeliverTurnRefines(
    env: Env, st: State, id: int, ports: set<Endpoint>, w: Window<seq<Message>>, start: seq<Message>,
    acks: seq<Message>, ms: seq<Message>, n: int)
    requires Ready(env, st) && Own(env, ms, id, n, ports) && Simulates(env, st, id, ports, w, start, acks)
    requires Accept(w.last, w.held.Keys, n) == Deliver
    ensures var (st', queue) := Turn(env, st, [ms]);
            && Simulates(env, st', id, ports, Window(n, w.held - {n + 1}, w.delivered + [ms]), start, acks)
            && queue == if n + 1 in w.held then [w.held[n + 1]] else []
  {
    assert Bundle(ms, id, n) && ReceiptFor(st.reg, ms[0]) == Deliver;
    hide Turn, Pass, Of, Run, RunAll, Foreign, ForeignHeld, Own, Bundle, Ready;
    DeliverTurn(env, st, ms, id, n, ports);
    RunAllSnoc(env, start, w.delivered, ms);
    OwnRunIsOf(env, st.dispatched, ms, id, n);
  }

  /** Handing a bundle on, then whatever it releases, is `Receiver.Drain`. */
  lemma {:induction false} DrainRefines(
    env: Env, st: State, id: int, ports: set<Endpoint>, w: Window<seq<Message>>, start: seq<Message>,
    acks: seq<Message>, ms: seq<Message>, n: int)
    requires Ready(env, st) && Own(env, ms, id, n, ports) && Simulates(env, st, id, ports, w, start, acks)
    requires Accept(w.last, w.held.Keys, n) == Deliver
    ensures Simulates(env, HandledInOrder(env, st, [ms]), id, ports, Drain(Window(n, w.held, w.delivered + [ms])),
            start, acks)
    decreases |w.held|
  {
    DeliverTurnRefines(env, st, id, ports, w, start, acks, ms, n);
    assert n + 1 in w.held ==> Own(env, w.held[n + 1], id, n + 1, ports);
    hide Turn, Pass, Simulates, Own, Ready, HandledInOrder;
    HandledStep(env, st, [ms]);
    var (st2, queue) := Turn(env, st, [ms]);
    if n + 1 in w.held {
      assert w.held.Keys - {n + 1} == (w.held - {n + 1}).Keys;
      DropShrinks(w.held, n + 1);
      var w2 := Window(n, w.held - {n + 1}, w.delivered + [ms]);
      DrainRefines(env, st2, id, ports, w2, start, acks, w.held[n + 1], n + 1);
    } else {
      assert w.held - {n + 1} == w.held;
      HandledNothing(env, st2);
    }
  }

  lemma OtherTurn(env: Env, st: State, ms: seq<Message>, id: int, n: int, ports: set<Endpoint>)
    requires Ready(env, st) && At(st.reg, id, ports)
    requires Own(env, ms, id, n, ports) && ReceiptFor(st.reg, ms[0]) != Deliver
    ensures HandledInOrder(env, st, [ms]) == Unmoved(st, ms)
  {
    OtherPass(env, st, ms, id, n, ports);
    assert Drained(st.reg.byId[id]) && Drained(Unmoved(st, ms).reg.byId[id]);
    TurnReleasesNothing(env, st, ms, id);
    LastTurn(env, st, ms);
  }

  /** A bundle through the engine is a packet through the window. */
  lemma BundleRefinesReceive(
    env: Env, st: State, id: int, ports: set<Endpoint>, w: Window<seq<Message>>, start: seq<Message>,
    acks: seq<Message>, ms: seq<Message>, n: int)
    requires Ready(env, st) && Own(env, ms, id, n, ports) && Simulates(env, st, id, ports, w, start, acks)
    ensures Simulates(env, HandledInOrder(env, st, [ms]), id, ports, Receive(w, n, ms), start,
                      acks + ItemAnswered(w, [(n, ms)]))
  {
    assert ms != [];
    hide Simulates, Own, Ready, HandledInOrder;
    if Accept(w.last, w.held.Keys, n) == Deliver {
      DrainRefines(env, st, id, ports, w, start, acks, ms, n);
      assert acks + [] == acks;
    } else {
      OtherRefines(env, st, id, ports, w, start, acks, ms, n);
    }
  }

  lemma OtherRefines(
    env: Env, st: State, id: int, ports: set<Endpoint>, w: Window<seq<Message>>, start: seq<Message>,
    acks: seq<Message>, ms: seq<Message>, n: int)
    requires Ready(env, st) && Own(env, ms, id, n, ports) && Simulates(env, st, id, ports, w, start, acks)
    requires Accept(w.last, w.held.Keys, n) != Deliver
    ensures Simulates(env, HandledInOrder(env, st, [ms]), id, ports, Receive(w, n, ms), start, acks + [ms[0]])
  {
    hide HandledInOrder, Simulates, Unmoved, Ready;
    assert Bundle(ms, id, n);
    UnmovedSimulates(env, st, id, ports, w, start, acks, ms, n);
    OtherTurn(env, st, ms, id, n, ports);
  }

  lemma UnmovedSimulates(
    env: Env, st: State, id: int, ports: set<Endpoint>, w: Window<seq<Message>>, start: seq<Message>,
    acks: seq<Message>, ms: seq<Message>, n: int)
    requires Own(env, ms, id, n, ports) && Simulates(env, st, id, ports, w, start, acks)
    requires Accept(w.last, w.held.Keys, n) != Deliver
    ensures At(st.reg, id, ports) && ms[0].sessionId == id && ReceiptFor(st.reg, ms[0]) != Deliver
    ensures Simulates(env, Unmoved(st, ms), id, ports, Receive(w, n, ms), start, acks + [ms[0]])
  {
    AcksSnoc(st.acked, ms[0], id);
    assert Bundle(ms, id, n);
    hide Foreign, Of, RunAll, AcksOf, Spares, Windowed;
  }

  lemma LightTurn(env: Env, st: State, ms: seq<Message>, id: int, ports: set<Endpoint>)
    requires Ready(env, st) && Light(env, ms, id, ports) && At(st.reg, id, ports)
    ensures Turn(env, st, [ms]) == (Pass(env, st, ms, false).0, [])
  {
    hide Pass, Turn, ForeignHeld, Run, LogInv;
    PlainRun(env, st, ms, id, ports);
    assert Drained(st.reg.byId[id]);
    assert Drained(Pass(env, st, ms, false).0.reg.byId[id]);
    hide Pass, Turn, Light, Ready, ForeignHeld;
    if ms != [] { TurnReleasesNothing(env, st, ms, id); } else { EmptyTurn(env, st); }
  }

  /** The session's bare ACKs and unreliable messages do not touch its window. */
  lemma LightKeeps(
    env: Env, st: State, id: int, ports: set<Endpoint>, w: Window<seq<Message>>, start: seq<Message>,
    acks: seq<Message>, ms: seq<Message>)
    requires Ready(env, st) && Light(env, ms, id, ports) && Simulates(env, st, id, ports, w, start, acks)
    ensures Simulates(env, HandledInOrder(env, st, [ms]), id, ports, w, start, acks)
  {
    PlainRun(env, st, ms, id, ports);
    LightDispatchesNone(env, st.dispatched, ms, id, ports);
    LightTurn(env, st, ms, id, ports);
    LastTurn(env, st, ms);
  }

  lemma {:induction false} LightDispatchesNone(
    env: Env, before: seq<Message>, ms: seq<Message>, id: int, ports: set<Endpoint>)
    requires Light(env, ms, id, ports)
    ensures Of(before + Run(env, ms), id) == Of(before, id)
  {
    OfAppend(before, Run(env, ms), id);
    NoneRan(Run(env, ms), id);
  }

  lemma {:induction false} NoneRan(ms: seq<Message>, id: int)
    requires forall m :: m in ms ==> !Ran(m, id)
    ensures Of(ms, id) == []
  {
    if ms != [] { NoneRan(ms[..|ms| - 1], id); }
  }

  // Whole runs.

  /**
    Inputs among which the session's bundles are reassembled: its own datagrams, and
    whatever leaves its epoch alone.
   */
  ghost predicate Fits(env: Env, input: Input, id: int, ports: set<Endpoint>) {
    match input
    case Arrives(d) =>
      if d.endpoint in ports then
        || (d.messages != [] && Own(env, d.messages, id, d.messages[0].sequence, ports))
        || Light(env, d.messages, id, ports)
      else Foreign(env, d.messages, id, ports)
    case Does(effects) => forall st :: GentleDoing(st, effects, id, ports)
  }

  ghost predicate GentleDoing(st: State, effects: seq<Effect>, id: int, ports: set<Endpoint>) {
    At(st.reg, id, ports) ==> GentleAll(st, effects, id, ports)
  }

  /** The session's bundles among the inputs, by number, in order of arrival. */
  function Bundles(inputs: seq<Input>, id: int): seq<(int, seq<Message>)> {
    if inputs == [] then []
    else
      var n := |inputs| - 1;
      Bundles(inputs[..n], id)
      + match inputs[n]
        case Arrives(d) =>
          if d.messages != [] && Windowed(d.messages[0]) && d.messages[0].sessionId == id
          then [(d.messages[0].sequence, d.messages)] else []
        case Does(_) => []
  }

  lemma FollowingIsSteady(env: Env, st: State, d: Datagram, id: int, ports: set<Endpoint>)
    requires At(st.reg, id, ports) && Fits(env, Arrives(d), id, ports)
    ensures Steady(env, st, Followed(st, d), id, ports) && Followed(st, d).dispatched == st.dispatched
  {
    var moving := Moving(st.reg, d.messages, d.endpoint);
    if moving.Some? {
      FollowingStaysOnTheHost(st.reg, d.messages, d.endpoint);
      var i :| 0 <= i < |d.messages| && d.messages[i].sessionId == moving.value;
      assert d.messages[i] in d.messages;
      GentleOneIsSteady(env, st, RebindEffect(moving.value, d.endpoint), id, ports);
    }
  }

  lemma SteadyKeepsSimulating(
    env: Env, a: State, b: State, id: int, ports: set<Endpoint>, w: Window<seq<Message>>, start: seq<Message>,
    acks: seq<Message>)
    requires Simulates(env, a, id, ports, w, start, acks) && Steady(env, a, b, id, ports)
    requires SameOutputOf(a, b, id)
    ensures Simulates(env, b, id, ports, w, start, acks)
  {
  }

  /** A window that took every item of a list. */
  function ItemReceived(w: Window<seq<Message>>, items: seq<(int, seq<Message>)>): Window<seq<Message>> {
    if items == [] then w else Receive(w, items[0].0, items[0].1)
  }

  /** The bare ACK that the one item of a list is answered with, unless the window takes it. */
  function ItemAnswered(w: Window<seq<Message>>, items: seq<(int, seq<Message>)>): seq<Message> {
    if items == [] || items[0].1 == [] || Accept(w.last, w.held.Keys, items[0].0) == Deliver then []
    else [items[0].1[0]]
  }

  function Unaccepted(items: seq<(int, seq<Message>)>): seq<Message> {
    if items == [] then []
    else
      var n := |items| - 1;
      Unaccepted(items[..n]) + ItemAnswered(ReceiveItems(items[..n]), [items[n]])
  }

  lemma ArrivalKeepsSimulating(
    env: Env, st: State, id: int, ports: set<Endpoint>, w: Window<seq<Message>>, start: seq<Message>,
    acks: seq<Message>, d: Datagram)
    requires Ready(env, st) && Simulates(env, st, id, ports, w, start, acks) && Fits(env, Arrives(d), id, ports)
    ensures Simulates(env, HandledDatagram(env, st, d), id, ports,
                      ItemReceived(w, Bundles([Arrives(d)], id)), start,
                      acks + ItemAnswered(w, Bundles([Arrives(d)], id)))
  {
    FollowedKeepsReady(env, st, d);
    FollowingIsSteady(env, st, d, id, ports);
    var st1 := Followed(st, d);
    SteadyKeepsSimulating(env, st, st1, id, ports, w, start, acks);
    assert acks + [] == acks;
    OneBundle(Arrives(d), id);
    var ms := d.messages;
    if d.endpoint in ports && ms != [] && Own(env, ms, id, ms[0].sequence, ports) {
      BundleRefinesReceive(env, st1, id, ports, w, start, acks, ms, ms[0].sequence);
    } else if d.endpoint in ports {
      assert ms != [] ==> ms[0] in ms;
      LightKeeps(env, st1, id, ports, w, start, acks, ms);
    } else {
      assert ms != [] ==> ms[0] in ms;
      ForeignDrain(env, st1, [ms], id, ports);
      SteadyKeepsSimulating(env, st1, HandledInOrder(env, st1, [ms]), id, ports, w, start, acks);
    }
  }

  lemma OneBundle(input: Input, id: int)
    ensures Bundles([input], id)
         == match input
            case Arrives(d) =>
              if d.messages != [] && Windowed(d.messages[0]) && d.messages[0].sessionId == id
              then [(d.messages[0].sequence, d.messages)] else []
            case Does(_) => []
  {
    assert [input][..0] == [];
  }

  lemma BundlesSnoc(inputs: seq<Input>, id: int)
    requires inputs != []
    ensures Bundles(inputs, id) == Bundles(inputs[..|inputs| - 1], id) + Bundles([inputs[|inputs| - 1]], id)
  {
    OneBundle(inputs[|inputs| - 1], id);
  }

  ghost predicate AllFit(env: Env, inputs: seq<Input>, id: int, ports: set<Endpoint>) {
    forall input :: input in inputs ==> Fits(env, input, id, ports)
  }

  lemma InputKeepsSimulating(
    env: Env, st: State, id: int, ports: set<Endpoint>, w: Window<seq<Message>>, start: seq<Message>,
    acks: seq<Message>, input: Input)
    requires Ready(env, st) && Simulates(env, st, id, ports, w, start, acks) && Fits(env, input, id, ports)
    ensures Simulates(env, HandledInput(env, st, input), id, ports, ItemReceived(w, Bundles([input], id)), start,
                      acks + ItemAnswered(w, Bundles([input], id)))
  {
    match input
    case Arrives(d) => ArrivalKeepsSimulating(env, st, id, ports, w, start, acks, d);
    case Does(effects) =>
      OneBundle(input, id);
      assert GentleDoing(st, effects, id, ports);
      GentleIsSteady(env, st, effects, id, ports);
      SteadyKeepsSimulating(env, st, AppliedAll(st, effects), id, ports, w, start, acks);
      assert acks + [] == acks;
  }

  /** The session's epoch has just begun, and what others hold came from elsewhere. */
  ghost predicate Opened(env: Env, st: State, id: int, ports: set<Endpoint>) {
    && At(st.reg, id, ports) && ForeignHeld(env, st.reg, id, ports)
    && st.reg.byId[id].lastIncoming == -1 && st.reg.byId[id].held == map[]
  }

  /** The engine's run, seen from one session, is the receive window's run over that session's bundles. */
  lemma {:induction false} EngineRefinesReceiver(env: Env, st: State, id: int, ports: set<Endpoint>, inputs: seq<Input>)
    requires Ready(env, st) && Opened(env, st, id, ports) && AllFit(env, inputs, id, ports)
    ensures Simulates(env, HandleAll(env, st, inputs), id, ports, ReceiveItems(Bundles(inputs, id)),
            Of(st.dispatched, id), AcksOf(st.acked, id) + Unaccepted(Bundles(inputs, id)))
    decreases |inputs|
  {
    var start, acks := Of(st.dispatched, id), AcksOf(st.acked, id);
    if inputs == [] {
      assert start + [] == start && acks + [] == acks;
    } else {
      var n := |inputs| - 1;
      EngineRefinesReceiver(env, st, id, ports, inputs[..n]);
      var w := ReceiveItems(Bundles(inputs[..n], id));
      var before := Unaccepted(Bundles(inputs[..n], id));
      InputKeepsSimulating(env, HandleAll(env, st, inputs[..n]), id, ports, w, start, acks + before, inputs[n]);
      BundlesSnoc(inputs, id);
      OneBundle(inputs[n], id);
      ReceiveItemsSnoc(Bundles(inputs[..n], id), Bundles([inputs[n]], id));
      JoinThree(acks, before, ItemAnswered(w, Bundles([inputs[n]], id)));
    }
  }

  lemma ReceiveItemsSnoc(items: seq<(int, seq<Message>)>, more: seq<(int, seq<Message>)>)
    requires |more| <= 1
    ensures ReceiveItems(items + more) == ItemReceived(ReceiveItems(items), more)
    ensures Unaccepted(items + more) == Unaccepted(items) + ItemAnswered(ReceiveItems(items), more)
  {
    if more == [] {
      assert items + more == items && Unaccepted(items) + [] == Unaccepted(items);
    } else {
      assert (items + more)[..|items|] == items && [(items + more)[|items|]] == more;
    }
  }

  /**
    What the session has dispatched since `start`, and what it holds, in terms
    of the bundles received: of the numbers from the first one on, the maximal
    contiguous run is dispatched, each bundle as its first copy had it, in order
    and once each, children after their outer packet; the session holds the rest.
   */
  ghost predicate DispatchedExactly(env: Env, st: State, id: int, start: seq<Message>, items: seq<(int, seq<Message>)>)
    requires items != []
  {
    var base, received := items[0].0, SinceBase(Numbers(items), items[0].0);
    && id in st.reg.byId
    && var s := st.reg.byId[id];
       && base <= s.lastIncoming
       && (forall n :: base <= n <= s.lastIncoming ==> n in received)
       && s.lastIncoming + 1 !in received
       && Of(st.dispatched, id) == start + RunAll(env, Span(base, s.lastIncoming + 1, n => FirstCopy(items, n)))
       && s.held.Keys == (set n | n in received && n > s.lastIncoming)
       && (forall n :: n in s.held ==> s.held[n] == FirstCopy(items, n))
  }

  lemma SimulatedExactly(
    env: Env, st: State, id: int, ports: set<Endpoint>, start: seq<Message>, acks: seq<Message>,
    items: seq<(int, seq<Message>)>)
    requires items != [] && Simulates(env, st, id, ports, ReceiveItems(items), start, acks)
    requires Reassembled(ReceiveItems(items), items[0].0, SinceBase(Numbers(items), items[0].0),
             n => FirstCopy(items, n))
    ensures DispatchedExactly(env, st, id, start, items)
  {
  }

  lemma {:induction false} NumbersAreNatural(inputs: seq<Input>, id: int)
    ensures forall n :: n in Numbers(Bundles(inputs, id)) ==> n >= 0
    decreases |inputs|
  {
    if inputs != [] {
      var before, items := Bundles(inputs[..|inputs| - 1], id), Bundles(inputs, id);
      NumbersAreNatural(inputs[..|inputs| - 1], id);
      forall i | 0 <= i < |items| ensures Numbers(items)[i] >= 0 {
        if i < |before| { assert Numbers(before)[i] in Numbers(before); }
      }
    }
  }

  /**
    Exact reassembly by the engine, from any state in which the session's epoch
    has just begun: its bundles arrive in any order, with loss and duplicates,
    from any of its ports, among its bare ACKs and unreliable messages, all
    other sessions' traffic and logins, and the server's own ticks and timeouts.
   */
  lemma EngineReassemblesExactly(env: Env, st: State, id: int, ports: set<Endpoint>, inputs: seq<Input>)
    requires Ready(env, st) && Opened(env, st, id, ports) && AllFit(env, inputs, id, ports) && Bundles(inputs, id) != []
    ensures DispatchedExactly(env, HandleAll(env, st, inputs), id, Of(st.dispatched, id), Bundles(inputs, id))
  {
    var items := Bundles(inputs, id);
    NumbersAreNatural(inputs, id);
    EngineRefinesReceiver(env, st, id, ports, inputs);
    ItemsReassemble(items);
    SimulatedExactly(env, HandleAll(env, st, inputs), id, ports, Of(st.dispatched, id),
                     AcksOf(st.acked, id) + Unaccepted(items), items);
  }

  // Which copies are acknowledged.

  /** The packet that continues the run received so far: the least number from the first one on that is missing. */
  ghost predicate Continues(received: seq<int>, n: int) {
    received == []
    || (n > received[0] && n !in received && forall k :: received[0] <= k < n ==> k in received)
  }

  /** The outer packets of the copies that did not continue the run when they came, in order of arrival. */
  ghost function Answered(items: seq<(int, seq<Message>)>): seq<Message> {
    if items == [] then []
    else
      var n := |items| - 1;
      Answered(items[..n])
      + if Continues(Numbers(items[..n]), items[n].0) || items[n].1 == [] then [] else [items[n].1[0]]
  }

  lemma DeliverContinues(items: seq<(int, seq<Message>)>, n: int)
    requires forall k :: k in Numbers(items) ==> k >= 0
    ensures var w := ReceiveItems(items);
            Accept(w.last, w.held.Keys, n) == Deliver <==> Continues(Numbers(items), n)
  {
    if items != [] {
      ItemsReassemble(items);
      var w, numbers := ReceiveItems(items), Numbers(items);
      var received := SinceBase(numbers, numbers[0]);
      assert numbers[0] == items[0].0 && numbers[0] in numbers;
      assert forall k :: k in received <==> k in numbers && k >= numbers[0];
      assert w.held.Keys == set k | k in received && k > w.last;
      if Continues(numbers, n) {
        assert n !in received;
        assert n > w.last + 1 ==> w.last + 1 in numbers;
        assert n == w.last + 1 && n !in w.held;
      } else if n == w.last + 1 {
        assert n !in received && n > numbers[0];
        assert forall k :: numbers[0] <= k < n ==> k in received;
      }
    }
  }

  lemma {:induction false} UnacceptedAreAnswered(items: seq<(int, seq<Message>)>)
    requires forall k :: k in Numbers(items) ==> k >= 0
    ensures Unaccepted(items) == Answered(items)
    decreases |items|
  {
    if items != [] {
      var n := |items| - 1;
      assert Numbers(items[..n]) == Numbers(items)[..n];
      assert forall k :: k in Numbers(items)[..n] ==> k in Numbers(items);
      UnacceptedAreAnswered(items[..n]);
      DeliverContinues(items[..n], items[n].0);
    }
  }

  /**
    Over every such run each copy of a bundle that continues the run received so
    far is dispatched, and every other copy, a repeat or one ahead of a gap, is
    acknowledged by itself, exactly once and in order of arrival: nothing else
    is acknowledged for the session.
   */
  lemma EveryOtherCopyIsAcknowledged(env: Env, st: State, id: int, ports: set<Endpoint>, inputs: seq<Input>)
    requires Ready(env, st) && Opened(env, st, id, ports) && AllFit(env, inputs, id, ports)
    ensures AcksOf(HandleAll(env, st, inputs).acked, id) == AcksOf(st.acked, id) + Answered(Bundles(inputs, id))
  {
    NumbersAreNatural(inputs, id);
    EngineRefinesReceiver(env, st, id, ports, inputs);
    UnacceptedAreAnswered(Bundles(inputs, id));
  }
}
