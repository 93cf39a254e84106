/**
  Logins in the engine: what a KICS login does is gentle to every other
  session's epoch and opens its own, so that reassembly is exact in runs that
  start from nothing.
 */
module EngineLogin {
  import opened Snap
  import opened Receiver
  import opened Sessions
  import opened Login
  import opened Engine
  import opened EngineReassembly

  /** `handle_login_to_kics` as effects on the tables, rooms aside. */
  function LoginEffects(reg: Registry, h: Handoff, endpoint: Endpoint): seq<Effect> {
    (if Stale(reg, h, endpoint).Some? then [EndEffect(Stale(reg, h, endpoint).value)] else [])
    + (if Adopts(reg, h) then [AdoptEffect(h)] else [])
    + [RestartEffect(h.sessionId)]
    + (if (if Adopts(reg, h) then h.endpoint else reg.byId[h.sessionId].endpoint) != endpoint
       then [RebindEffect(h.sessionId, endpoint)] else [])
  }

  lemma {:induction false} AppliedAllAppends(st: State, a: seq<Effect>, b: seq<Effect>)
    ensures AppliedAll(st, a + b) == AppliedAll(AppliedAll(st, a), b)
    decreases |a|
  {
    if a == [] {
      assert a + b == b;
    } else {
      AppliedAllAppends(Applied(st, a[0]), a[1..], b);
      assert (a + b)[0] == a[0] && (a + b)[1..] == a[1..] + b;
    }
  }

  lemma {:induction false} GentleAllAppends(st: State, a: seq<Effect>, b: seq<Effect>, id: int, ports: set<Endpoint>)
    requires GentleAll(st, a, id, ports) && GentleAll(AppliedAll(st, a), b, id, ports)
    ensures GentleAll(st, a + b, id, ports)
    decreases |a|
  {
    if a == [] {
      assert a + b == b;
    } else {
      GentleAllAppends(Applied(st, a[0]), a[1..], b, id, ports);
      assert (a + b)[0] == a[0] && (a + b)[1..] == a[1..] + b;
    }
  }

  /** None or one effect. */
  lemma AppliedOne(st: State, e: Effect)
    ensures AppliedAll(st, [e]) == Applied(st, e) && AppliedAll(st, []) == st
  {
    assert [e][1..] == [];
    assert AppliedAll(Applied(st, e), []) == Applied(st, e);
  }

  function EndedStale(st: State, h: Handoff, endpoint: Endpoint): State {
    if Stale(st.reg, h, endpoint).Some? then Applied(st, EndEffect(Stale(st.reg, h, endpoint).value)) else st
  }

  /** The effects are the login of the games: the stale session ends, then the login is seated. */
  lemma LoginEffectsSeat(st: State, h: Handoff, endpoint: Endpoint)
    requires Sound(st.reg)
    ensures AppliedAll(st, LoginEffects(st.reg, h, endpoint)).reg
         == SeatedRegistry(EndedStale(st, h, endpoint).reg, h, endpoint)
    ensures AppliedAll(st, LoginEffects(st.reg, h, endpoint)).dispatched == st.dispatched
  {
    var reg := st.reg;
    var stale := Stale(reg, h, endpoint);
    var ends := if stale.Some? then [EndEffect(stale.value)] else [];
    var adopts := if Adopts(reg, h) then [AdoptEffect(h)] else [];
    var restarts := [RestartEffect(h.sessionId)];
    var rebinds := if (if Adopts(reg, h) then h.endpoint else reg.byId[h.sessionId].endpoint) != endpoint
                   then [RebindEffect(h.sessionId, endpoint)] else [];
    var st1 := EndedStale(st, h, endpoint);
    var st2 := if Adopts(reg, h) then Applied(st1, AdoptEffect(h)) else st1;
    var st3 := Applied(st2, RestartEffect(h.sessionId));
    AppliedAllAppends(st, ends + adopts + restarts, rebinds);
    AppliedAllAppends(st, ends + adopts, restarts);
    AppliedAllAppends(st, ends, adopts);
    if stale.Some? { AppliedOne(st, EndEffect(stale.value)); }
    AppliedOne(st1, AdoptEffect(h));
    AppliedOne(st2, RestartEffect(h.sessionId));
    AppliedOne(st3, RebindEffect(h.sessionId, endpoint));
    assert Adopts(st1.reg, h) == Adopts(reg, h);
  }

  // Gentle to the others.

  lemma {:induction false} GentleLogin(st: State, h: Handoff, endpoint: Endpoint, id: int, ports: set<Endpoint>)
    requires At(st.reg, id, ports) && h.sessionId != id && endpoint !in ports && h.endpoint !in ports
    ensures GentleAll(st, LoginEffects(st.reg, h, endpoint), id, ports)
  {
    var reg := st.reg;
    var stale := Stale(reg, h, endpoint);
    var ends := if stale.Some? then [EndEffect(stale.value)] else [];
    var adopts := if Adopts(reg, h) then [AdoptEffect(h)] else [];
    var restarts := [RestartEffect(h.sessionId)];
    var rebinds := if (if Adopts(reg, h) then h.endpoint else reg.byId[h.sessionId].endpoint) != endpoint
                   then [RebindEffect(h.sessionId, endpoint)] else [];
    var st1 := EndedStale(st, h, endpoint);
    var st2 := if Adopts(reg, h) then Applied(st1, AdoptEffect(h)) else st1;
    if stale.Some? { AppliedOne(st, EndEffect(stale.value)); }
    AppliedOne(st1, AdoptEffect(h));
    AppliedOne(st2, RestartEffect(h.sessionId));
    assert At(st1.reg, id, ports);
    assert GentleAll(st, ends, id, ports);
    GentleAllAppends(st, ends, adopts, id, ports);
    AppliedAllAppends(st, ends, adopts);
    GentleAllAppends(st, ends + adopts, restarts, id, ports);
    GentleAllAppends(st, ends + adopts + restarts, rebinds, id, ports);
  }

  /** The message is a KICS login: its handler does with the tables what a login does. */
  ghost predicate LogsIn(env: Env, m: Message, h: Handoff) {
    forall reg: Registry, history: seq<Message>, m': Message ::
      m' == m.(sessionId := m'.sessionId) ==> LoginHandling(env, reg, history, m', h)
  }

  ghost predicate LoginHandling(env: Env, reg: Registry, history: seq<Message>, m: Message, h: Handoff) {
    env.handler(reg, history, m) == LoginEffects(reg, h, m.endpoint)
  }

  /** A login of another session from elsewhere spares this one: a login handler meets what reassembly asks. */
  lemma LoginsAreGentle(env: Env, m: Message, h: Handoff, id: int, ports: set<Endpoint>)
    requires LogsIn(env, m, h) && m.sessionId != id && h.sessionId != id
    requires m.endpoint !in ports && h.endpoint !in ports
    ensures Foreign(env, [m], id, ports)
  {
    forall st, m' | Readdressed(m, m', id) ensures GentleHandling(env, st, m', id, ports) {
      assert LoginHandling(env, st.reg, st.dispatched, m', h);
      if At(st.reg, id, ports) {
        GentleLogin(st.(dispatched := st.dispatched + [m']), h, m.endpoint, id, ports);
      }
    }
  }

  // Its own epoch.

  /** A login that no live session's window holds back. */
  predicate Ungated(reg: Registry, m: Message) {
    !BareAck(m) && (Windowed(m) ==> Resolve(reg, m.sessionId, m.endpoint) == None)
  }

  lemma {:induction false} EffectsDispatchNothing(st: State, effects: seq<Effect>)
    ensures AppliedAll(st, effects).dispatched == st.dispatched
    decreases |effects|
  {
    if effects != [] {
      EffectOnlyDrops(st, effects[0]);
      EffectsDispatchNothing(Applied(st, effects[0]), effects[1..]);
    }
  }

  /**
    A login comes to its handler unless a live session's window, its own old one
    or that of the session bound to its endpoint, holds it or takes it for a repeat.
   */
  lemma LoginRunsIff(env: Env, st: State, m: Message)
    requires !BareAck(m) && env.handled(Normalized(st.reg, m))
    ensures var m' := Normalized(st.reg, m);
            var st' := Pass(env, st, [m], false).0;
            if Windowed(m') && m'.sessionId in st.reg.byId && ReceiptFor(st.reg, m') != Deliver
            then st'.dispatched == st.dispatched
            else st'.dispatched == st.dispatched + [m']
  {
    var m' := Normalized(st.reg, m);
    var st1 := if Windowed(m') && m'.sessionId in st.reg.byId then AcceptedPacket(st, m') else st;
    assert [m][1..] == [];
    EffectsDispatchNothing(st1.(dispatched := st1.dispatched + [m']), env.handler(st1.reg, st1.dispatched, m'));
  }

  lemma DispatchedLogin(env: Env, st: State, m: Message, h: Handoff)
    requires Ready(env, st) && LogsIn(env, m, h) && env.handled(Normalized(st.reg, m)) && Ungated(st.reg, m)
    ensures var m' := Normalized(st.reg, m);
            Pass(env, st, [m], false)
            == (AppliedAll(st.(dispatched := st.dispatched + [m']), LoginEffects(st.reg, h, m.endpoint)),
                {m'.sessionId})
  {
    var m' := Normalized(st.reg, m);
    assert LoginHandling(env, st.reg, st.dispatched, m', h);
    assert [m][1..] == [];
    assert {} + {m'.sessionId} == {m'.sessionId};
  }

  /** What the tables hold in front of which number only gets less. */
  ghost predicate OnlyEmpties(a: Registry, b: Registry) {
    forall x :: x in b.byId && b.byId[x].held != map[] ==>
      x in a.byId && b.byId[x].held == a.byId[x].held && b.byId[x].lastIncoming == a.byId[x].lastIncoming
  }

  lemma LoginState(env: Env, st: State, h: Handoff, endpoint: Endpoint, ports: set<Endpoint>)
    requires Sound(st.reg) && endpoint in ports && ForeignHeld(env, st.reg, h.sessionId, ports)
    ensures var st1 := AppliedAll(st, LoginEffects(st.reg, h, endpoint));
            Opened(env, st1, h.sessionId, ports) && OnlyEmpties(st.reg, st1.reg)
  {
    LoginEffectsSeat(st, h, endpoint);
    var reg1 := EndedStale(st, h, endpoint).reg;
    assert Sound(reg1) && OnlyEmpties(st.reg, reg1);
    SeatedIsOpen(reg1, h, endpoint);
  }

  lemma LoginTurn(env: Env, st: State, m: Message, h: Handoff)
    requires Ready(env, st) && LogsIn(env, m, h) && env.handled(Normalized(st.reg, m)) && Ungated(st.reg, m)
    requires OnlyEmpties(st.reg, Pass(env, st, [m], false).0.reg)
    ensures Turn(env, st, [[m]]) == (Pass(env, st, [m], false).0, [])
  {
    var m' := Normalized(st.reg, m);
    DispatchedLogin(env, st, m, h);
    OnlySession(env.order, m'.sessionId);
    NothingReady(env, st, Pass(env, st, [m], false).0, m'.sessionId);
    assert [[m]][1..] + [] == [];
  }

  /** After its login datagram a session is live where it logged in from, its epoch just begun. */
  lemma LoginOpens(env: Env, st: State, m: Message, h: Handoff, ports: set<Endpoint>)
    requires Ready(env, st) && LogsIn(env, m, h) && env.handled(Normalized(st.reg, m)) && Ungated(st.reg, m)
    requires Moving(st.reg, [m], m.endpoint) == None && m.endpoint in ports
    requires ForeignHeld(env, st.reg, h.sessionId, ports)
    ensures var st' := HandledDatagram(env, st, Datagram(m.endpoint, [m]));
            Opened(env, st', h.sessionId, ports) && st'.dispatched == st.dispatched + [Normalized(st.reg, m)]
  {
    var st0 := st.(dispatched := st.dispatched + [Normalized(st.reg, m)]);
    DispatchedLogin(env, st, m, h);
    LoginState(env, st0, h, m.endpoint, ports);
    LoginEffectsSeat(st0, h, m.endpoint);
    LoginTurn(env, st, m, h);
    TurnShrinks(env, st, [[m]]);
    assert HandledInOrder(env, st, [[m]]) == Pass(env, st, [m], false).0;
  }

  /** A handler that drops held datagrams or keeps them whole makes none ready. */
  lemma NothingReady(env: Env, a: State, b: State, id: int)
    requires Ready(env, a) && OnlyEmpties(a.reg, b.reg)
    ensures PopReady(b.reg, [id]) == (b.reg, [])
  {
    var none: seq<int> := [];
    assert [id][1..] == none && PopReady(b.reg, none) == (b.reg, []);
    if id in b.reg.byId && b.reg.byId[id].held != map[] { assert Drained(a.reg.byId[id]); }
  }

  lemma SeatedIsOpen(reg: Registry, h: Handoff, endpoint: Endpoint)
    requires Sound(reg)
    ensures var reg' := SeatedRegistry(reg, h, endpoint);
            && Sound(reg') && h.sessionId in reg'.byId
            && reg'.byId[h.sessionId].endpoint == endpoint
            && reg'.byId[h.sessionId].lastIncoming == -1 && reg'.byId[h.sessionId].held == map[]
            && forall x :: x in reg'.byId && x != h.sessionId ==>
                 x in reg.byId && reg'.byId[x].held == reg.byId[x].held
                     && reg'.byId[x].lastIncoming == reg.byId[x].lastIncoming
  {
    SeatingPlaces(reg, h, endpoint);
  }

  // Runs from nothing.

  lemma {:induction false} HandleAllFrom(env: Env, st: State, first: Input, rest: seq<Input>)
    requires Ready(env, st)
    ensures Ready(env, HandledInput(env, st, first))
    ensures HandleAll(env, st, [first] + rest) == HandleAll(env, HandledInput(env, st, first), rest)
    decreases |rest|
  {
    hide HandleAll, HandledInput, Ready;
    InputKeepsReady(env, st, first);
    var none: seq<Input> := [];
    HandleNone(env, st);
    HandleNone(env, HandledInput(env, st, first));
    if rest == [] {
      assert [first] + rest == none + [first];
      HandleAllSnoc(env, st, none, first);
    } else {
      var n := |rest| - 1;
      HandleAllFrom(env, st, first, rest[..n]);
      HandleAllSnoc(env, st, [first] + rest[..n], rest[n]);
      HandleAllSnoc(env, HandledInput(env, st, first), rest[..n], rest[n]);
      assert [first] + rest == [first] + rest[..n] + [rest[n]] && rest == rest[..n] + [rest[n]];
    }
  }

  lemma HandleNone(env: Env, st: State)
    requires Ready(env, st)
    ensures HandleAll(env, st, []) == st
  {
  }

  lemma HandleAllSnoc(env: Env, st: State, inputs: seq<Input>, last: Input)
    requires Ready(env, st)
    ensures HandleAll(env, st, inputs + [last]) == HandledInput(env, HandleAll(env, st, inputs), last)
  {
    assert (inputs + [last])[..|inputs|] == inputs;
  }

  lemma StartIsReady(env: Env)
    requires Enumerates(env.order)
    ensures Ready(env, START)
  {
  }

  /**
    From the constructor on: a login, and then any run of the client's bundles
    among everybody else's traffic.  What was dispatched for it, its login
    apart, is exactly the run received.
   */
  lemma ReassemblyFromTheLogin(env: Env, m: Message, h: Handoff, ports: set<Endpoint>, inputs: seq<Input>)
    requires Enumerates(env.order) && LogsIn(env, m, h) && env.handled(m) && !BareAck(m) && m.endpoint in ports
    requires AllFit(env, inputs, h.sessionId, ports) && Bundles(inputs, h.sessionId) != []
    ensures Ready(env, START)
    ensures DispatchedExactly(env, HandleAll(env, START, [Arrives(Datagram(m.endpoint, [m]))] + inputs), h.sessionId,
                              Of([m], h.sessionId), Bundles(inputs, h.sessionId))
  {
    StartIsReady(env);
    var login := Arrives(Datagram(m.endpoint, [m]));
    assert Normalized(EMPTY, m) == m;
    assert [m][1..] == [] && Moving(EMPTY, [], m.endpoint) == None;
    LoginOpens(env, START, m, h, ports);
    HandleAllFrom(env, START, login, inputs);
    assert [] + [m] == [m];
    EngineReassemblesExactly(env, HandledInput(env, START, login), h.sessionId, ports, inputs);
  }

  // One such run.

  ghost function ListOf<T(!new)>(s: set<T>): (listing: seq<T>)
    ensures (forall x :: x in s <==> x in listing) && |listing| == |s|
  {
    if s == {} then []
    else
      var x :| x in s;
      [x] + ListOf(s - {x})
  }

  const CMD_LOGIN := 1

  /** Every message is handled; command 1 is a login with the handoff its own fields name. */
  ghost function Games(): (env: Env)
    ensures Enumerates(env.order) && forall m :: env.handled(m)
  {
    Env((m: Message) => true,
        (reg: Registry, history: seq<Message>, m: Message) =>
          if m.command == CMD_LOGIN then LoginEffects(reg, HandoffOf(m), m.endpoint) else [],
        (ids: set<int>) => ListOf(ids))
  }

  function HandoffOf(m: Message): Handoff {
    Handoff(1, m.packetNumber, m.endpoint, 0)
  }

  function Reliably(id: int, n: nat, endpoint: Endpoint, command: int): Message {
    Message(endpoint, FLAG_RELIABLE, id, command, id, n, 0, [], false)
  }

  const HERE := Endpoint("here", 1)
  const THERE := Endpoint("there", 1)

  /** Session 1 logs in; of its packets 2 comes before 1, twice, while session 2 logs in and starts sending. */
  const SOME_INPUTS := [
    Arrives(Datagram(HERE, [Reliably(1, 0, HERE, 7)])),
    Arrives(Datagram(HERE, [Reliably(1, 2, HERE, 7)])),
    Arrives(Datagram(THERE, [Reliably(2, 0, THERE, CMD_LOGIN)])),
    Arrives(Datagram(THERE, [Reliably(2, 5, THERE, 7), Reliably(2, 6, THERE, 7)])),
    Arrives(Datagram(HERE, [Reliably(1, 2, HERE, 7)])),
    Arrives(Datagram(HERE, [Reliably(1, 1, HERE, 7)]))]

  lemma PlainCommandsSpare(m: Message, id: int, ports: set<Endpoint>)
    requires m.command != CMD_LOGIN
    ensures Spares(Games(), m, id, ports)
  {
  }

  lemma SomeInputsFit()
    ensures AllFit(Games(), SOME_INPUTS, 1, {HERE})
    ensures LogsIn(Games(), Reliably(1, 0, HERE, CMD_LOGIN), HandoffOf(Reliably(1, 0, HERE, CMD_LOGIN)))
  {
    var env := Games();
    forall id, n, endpoint, command | command != CMD_LOGIN
      ensures Spares(env, Reliably(id, n, endpoint, command), 1, {HERE})
    {
      PlainCommandsSpare(Reliably(id, n, endpoint, command), 1, {HERE});
    }
    LoginsAreGentle(env, Reliably(2, 0, THERE, CMD_LOGIN), HandoffOf(Reliably(2, 0, THERE, CMD_LOGIN)), 1, {HERE});
    forall input | input in SOME_INPUTS ensures Fits(env, input, 1, {HERE}) {
    }
  }

  const SOME_LOGIN := Reliably(1, 0, HERE, CMD_LOGIN)

  /** The hypotheses meet: in this run the numbers 0, 2, 2, 1 of session 1 are dispatched as 0, 1, 2. */
  lemma SomeRun()
    ensures Numbers(Bundles(SOME_INPUTS, 1)) == [0, 2, 2, 1]
    ensures Ready(Games(), START)
    ensures var st := HandleAll(Games(), START, [Arrives(Datagram(HERE, [SOME_LOGIN]))] + SOME_INPUTS);
            DispatchedExactly(Games(), st, 1, Of([SOME_LOGIN], 1), Bundles(SOME_INPUTS, 1))
  {
    SomeInputsFit();
    SomeBundles();
    var h := HandoffOf(SOME_LOGIN);
    assert Bundles(SOME_INPUTS, 1) != [] by { assert |Numbers(Bundles(SOME_INPUTS, 1))| == 4; }
    assert Games().handled(SOME_LOGIN);
    assert LogsIn(Games(), SOME_LOGIN, h);
    hide AllFit, LogsIn, Bundles, HandleAll, DispatchedExactly, Of, Enumerates, Ready;
    ReassemblyFromTheLogin(Games(), SOME_LOGIN, HandoffOf(SOME_LOGIN), {HERE}, SOME_INPUTS);
  }

  lemma SomeBundles()
    ensures Numbers(Bundles(SOME_INPUTS, 1)) == [0, 2, 2, 1]
    ensures HandoffOf(SOME_LOGIN).sessionId == 1 && SOME_LOGIN.endpoint == HERE && !BareAck(SOME_LOGIN)
  {
    SomeBundlesUpTo(0);
    SomeBundlesUpTo(1);
    SomeBundlesUpTo(2);
    SomeBundlesUpTo(3);
    SomeBundlesUpTo(4);
    SomeBundlesUpTo(5);
    var none: seq<Input> := [];
    assert SOME_INPUTS[..0] == none && SOME_INPUTS[..6] == SOME_INPUTS;
  }

  lemma SomeBundlesUpTo(n: nat)
    requires n < |SOME_INPUTS|
    ensures Bundles(SOME_INPUTS[..n + 1], 1)
         == Bundles(SOME_INPUTS[..n], 1)
            + var ms := SOME_INPUTS[n].datagram.messages; if ms[0].sessionId == 1 then [(ms[0].sequence, ms)] else []
  {
    BundlesSnoc(SOME_INPUTS[..n + 1], 1);
    OneBundle(SOME_INPUTS[n], 1);
    assert SOME_INPUTS[..n + 1][..n] == SOME_INPUTS[..n];
  }
}
