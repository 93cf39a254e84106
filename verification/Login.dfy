/**
  What a login does to the registry (`handle_login_to_kics`,
  opensnap/core/game/handlers.py), for every game alike: it ends another session
  bound to its endpoint, adopts its handoff if that is new, restarts the
  reliable numbering and follows the client to the endpoint it came from.
 */
module Login {
  import opened Snap
  import opened Sessions

  /** The session a request acts for: by its id, else by its endpoint (`resolve_session`). */
  function Actor(reg: Registry, sessionId: int, endpoint: Endpoint): Option<int> {
    if sessionId in reg.byId then Some(sessionId)
    else if endpoint in reg.byEndpoint && reg.byEndpoint[endpoint] in reg.byId
    then Some(reg.byEndpoint[endpoint])
    else None
  }

  /** Another session bound to the endpoint the login comes from. */
  function Stale(reg: Registry, h: Handoff, endpoint: Endpoint): Option<int> {
    if endpoint in reg.byEndpoint && reg.byEndpoint[endpoint] in reg.byId
       && reg.byEndpoint[endpoint] != h.sessionId
    then Some(reg.byEndpoint[endpoint]) else None
  }

  predicate Adopts(reg: Registry, h: Handoff) {
    h.sessionId !in reg.byId || reg.byId[h.sessionId].handoffSerial != h.serial
  }

  /** `handle_login_to_kics` from `adopt` on: the session, its counters and its endpoint. */
  function SeatedRegistry(reg: Registry, h: Handoff, endpoint: Endpoint): Registry {
    var adopted := if Adopts(reg, h) then Adopted(reg, h) else reg;
    var restarted := Restarted(adopted, h.sessionId);
    if h.sessionId in restarted.byId && restarted.byId[h.sessionId].endpoint != endpoint
    then Rebound(restarted, h.sessionId, endpoint) else restarted
  }

  function Pushed(reg: Registry, h: Handoff): set<int> {
    if Adopts(reg, h) && Superseded(reg, h).Some? then {Superseded(reg, h).value} else {}
  }

  /** Same sessions in the same places, apart from their endpoints and counters. */
  ghost predicate SamePlaces(a: Registry, b: Registry) {
    && a.byId.Keys == b.byId.Keys
    && forall s :: s in a.byId ==> a.byId[s].roomId == b.byId[s].roomId && a.byId[s].lobbyId == b.byId[s].lobbyId
  }

  lemma BindingKeepsPlaces(reg: Registry, s: int, endpoint: Endpoint)
    requires Sound(reg)
    ensures Sound(Restarted(reg, s)) && SamePlaces(Restarted(reg, s), reg)
    ensures Sound(Rebound(reg, s, endpoint)) && SamePlaces(Rebound(reg, s, endpoint), reg)
  {
  }

  lemma AdoptingPlaces(reg: Registry, h: Handoff)
    requires Sound(reg)
    ensures Sound(Adopted(reg, h))
    ensures Adopted(reg, h).byId.Keys
         == reg.byId.Keys + {h.sessionId} - if Superseded(reg, h).Some? then {Superseded(reg, h).value} else {}
    ensures h.sessionId in Adopted(reg, h).byId && Adopted(reg, h).byId[h.sessionId] == NewSession(h)
    ensures forall s :: s in Adopted(reg, h).byId && s != h.sessionId ==> Adopted(reg, h).byId[s] == reg.byId[s]
  {
  }

  /** Who is live after a login, and where: the login, and everybody but the session it pushed out, unmoved. */
  lemma SeatingPlaces(reg: Registry, h: Handoff, endpoint: Endpoint)
    requires Sound(reg)
    ensures var reg' := SeatedRegistry(reg, h, endpoint);
            && Sound(reg')
            && SamePlaces(reg', if Adopts(reg, h) then Adopted(reg, h) else reg)
            && reg'.byId.Keys == reg.byId.Keys + {h.sessionId} - Pushed(reg, h)
            && h.sessionId in reg'.byId
  {
    if Adopts(reg, h) { AdoptingPlaces(reg, h); }
    var adopted := if Adopts(reg, h) then Adopted(reg, h) else reg;
    BindingKeepsPlaces(adopted, h.sessionId, endpoint);
    BindingKeepsPlaces(Restarted(adopted, h.sessionId), h.sessionId, endpoint);
  }

  /** Who acts and who is stale, where every live session is found at its endpoint. */
  lemma FoundByEndpoint(reg: Registry, h: Handoff, sessionId: int, endpoint: Endpoint, s: int)
    requires Exact(reg)
    ensures Actor(reg, sessionId, endpoint) == Some(s) <==>
            s in reg.byId && (s == sessionId || (sessionId !in reg.byId && reg.byId[s].endpoint == endpoint))
    ensures Stale(reg, h, endpoint) == Some(s) <==>
            s in reg.byId && s != h.sessionId && reg.byId[s].endpoint == endpoint
  {
  }

  /**
    The login's session is at its endpoint and counts afresh.  The same handoff
    again keeps its Area, room and unreliable numbers, a new one starts them over;
    the other sessions stay as they were.
   */
  lemma SeatedSession(reg: Registry, h: Handoff, endpoint: Endpoint)
    requires Exact(reg)
    ensures var reg' := SeatedRegistry(reg, h, endpoint);
            && h.sessionId in reg'.byId && endpoint in reg'.byEndpoint && reg'.byEndpoint[endpoint] == h.sessionId
            && (forall p :: p in reg'.byId && p != h.sessionId ==> p in reg.byId && reg'.byId[p] == reg.byId[p])
            && var s := reg'.byId[h.sessionId];
               && s.endpoint == endpoint && s.requestNumber == 0 && s.lastIncoming == -1 && s.held == map[]
               && s.handoffSerial == h.serial
               && (if h.sessionId in reg.byId && reg.byId[h.sessionId].handoffSerial == h.serial then
                     var was := reg.byId[h.sessionId];
                     s.lobbyId == was.lobbyId && s.roomId == was.roomId && s.sequenceNumber == was.sequenceNumber
                   else s.lobbyId == 0 && s.roomId == 0 && s.sequenceNumber == h.sequenceNumber)
  {
  }

  method Seat(sessions: SessionRegistry, h: Handoff, endpoint: Endpoint)
    modifies sessions
    ensures sessions.State() == SeatedRegistry(old(sessions.State()), h, endpoint)
  {
    if h.sessionId !in sessions.byId || sessions.byId[h.sessionId].handoffSerial != h.serial {
      var adopted := sessions.Adopt(h);
    }
    sessions.RestartReliable(h.sessionId);
    if h.sessionId in sessions.byId && sessions.byId[h.sessionId].endpoint != endpoint {
      sessions.RebindEndpoint(h.sessionId, endpoint);
    }
  }
}
