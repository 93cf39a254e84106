/** Session records and the registry that finds them by id and by endpoint (opensnap/core/sessions.py). */
module Sessions {
  import opened Snap
  import opened Receiver

  datatype Session = Session(
    sessionId: int,
    endpoint: Endpoint,
    requestNumber: nat,
    sequenceNumber: int,
    lastIncoming: int,
    held: map<int, seq<Message>>,
    lobbyId: int,
    roomId: int,
    handoffSerial: int)

  datatype Handoff = Handoff(serial: int, sessionId: int, endpoint: Endpoint, sequenceNumber: int)

  datatype Registry = Registry(byId: map<int, Session>, byEndpoint: map<Endpoint, int>)

  const EMPTY := Registry(map[], map[])

  function NewSession(h: Handoff): Session {
    Session(h.sessionId, h.endpoint, 0, h.sequenceNumber, -1, map[], 0, 0, h.serial)
  }

  function Get(r: Registry, sessionId: int): Option<Session> {
    if sessionId in r.byId then Some(r.byId[sessionId]) else None
  }

  function GetByEndpoint(r: Registry, endpoint: Endpoint): Option<Session> {
    if endpoint in r.byEndpoint then Get(r, r.byEndpoint[endpoint]) else None
  }

  /** `resolve_session`: by id first, then by bound endpoint. */
  function Resolve(r: Registry, sessionId: int, endpoint: Endpoint): Option<Session> {
    if sessionId in r.byId then Some(r.byId[sessionId]) else GetByEndpoint(r, endpoint)
  }

  /** The session a new login at this handoff's endpoint pushes out, if any. */
  function Superseded(r: Registry, h: Handoff): Option<int> {
    var entries := if h.sessionId in r.byId then r.byEndpoint - {r.byId[h.sessionId].endpoint} else r.byEndpoint;
    if h.endpoint in entries then Some(entries[h.endpoint]) else None
  }

  function Adopted(r: Registry, h: Handoff): Registry {
    var entries := if h.sessionId in r.byId then r.byEndpoint - {r.byId[h.sessionId].endpoint} else r.byEndpoint;
    var sessions := if h.endpoint in entries then r.byId - {entries[h.endpoint]} else r.byId;
    Registry(sessions[h.sessionId := NewSession(h)], (entries - {h.endpoint})[h.endpoint := h.sessionId])
  }

  function Restarted(r: Registry, sessionId: int): Registry {
    if sessionId in r.byId then
      r.(byId := r.byId[sessionId := r.byId[sessionId].(requestNumber := 0, lastIncoming := -1, held := map[])])
    else r
  }

  function Rebound(r: Registry, sessionId: int, endpoint: Endpoint): Registry {
    if sessionId in r.byId then
      Registry(
        r.byId[sessionId := r.byId[sessionId].(endpoint := endpoint)],
        (r.byEndpoint - {r.byId[sessionId].endpoint} - {endpoint})[endpoint := sessionId])
    else r
  }

  function Removed(r: Registry, sessionId: int): Registry {
    if sessionId in r.byId then
      Registry(r.byId - {sessionId}, r.byEndpoint - {r.byId[sessionId].endpoint})
    else r
  }

  function WithLobby(r: Registry, sessionId: int, lobbyId: int): Registry {
    if sessionId in r.byId then r.(byId := r.byId[sessionId := r.byId[sessionId].(lobbyId := lobbyId)]) else r
  }

  function WithRoom(r: Registry, sessionId: int, roomId: int): Registry {
    if sessionId in r.byId then r.(byId := r.byId[sessionId := r.byId[sessionId].(roomId := roomId)]) else r
  }

  function RoomMembers(r: Registry, roomId: int): set<int> {
    set s | s in r.byId && r.byId[s].roomId == roomId
  }

  function LobbyMembers(r: Registry, lobbyId: int): set<int> {
    set s | s in r.byId && r.byId[s].lobbyId == lobbyId
  }

  // What the two tables say of each other.

  /** Every endpoint entry names a live session with that endpoint, and sessions are filed under their own id. */
  ghost predicate Sound(r: Registry) {
    && (forall s :: s in r.byId ==> r.byId[s].sessionId == s)
    && (forall e :: e in r.byEndpoint ==> r.byEndpoint[e] in r.byId && r.byId[r.byEndpoint[e]].endpoint == e)
  }

  /** And every live session is found at its endpoint. */
  ghost predicate Exact(r: Registry) {
    && Sound(r)
    && forall s :: s in r.byId ==> r.byId[s].endpoint in r.byEndpoint && r.byEndpoint[r.byId[s].endpoint] == s
  }

  /** Every operation keeps the endpoint table sound. */
  lemma SoundIsKept(r: Registry, h: Handoff, sessionId: int, endpoint: Endpoint, n: int)
    requires Sound(r)
    ensures Sound(Adopted(r, h))
    ensures Sound(Restarted(r, sessionId))
    ensures Sound(Removed(r, sessionId))
    ensures Sound(WithLobby(r, sessionId, n)) && Sound(WithRoom(r, sessionId, n))
    ensures Sound(Rebound(r, sessionId, endpoint))
  {
  }

  /**
    A new login takes over its endpoint, pushes at most the one session bound there out,
    and keeps exact tables exact.
   */
  lemma AdoptTakesOver(r: Registry, h: Handoff)
    requires Exact(r)
    ensures Exact(Adopted(r, h))
    ensures GetByEndpoint(Adopted(r, h), h.endpoint) == Some(NewSession(h))
    ensures forall s :: s in r.byId && s != h.sessionId ==>
              (s in Adopted(r, h).byId <==> r.byId[s].endpoint != h.endpoint)
    ensures forall s :: s in Adopted(r, h).byId && s != h.sessionId ==> Adopted(r, h).byId[s] == r.byId[s]
  {
  }

  /** Following a client to a new port keeps exact tables exact just when no other session is bound there. */
  lemma RebindIsExactIff(r: Registry, sessionId: int, endpoint: Endpoint)
    requires Exact(r) && sessionId in r.byId
    ensures Exact(Rebound(r, sessionId, endpoint))
            <==> (endpoint in r.byEndpoint ==> r.byEndpoint[endpoint] == sessionId)
  {
    var r' := Rebound(r, sessionId, endpoint);
    if endpoint in r.byEndpoint && r.byEndpoint[endpoint] != sessionId {
      var other := r.byEndpoint[endpoint];
      assert other in r'.byId && r'.byEndpoint[r'.byId[other].endpoint] != other;
    }
  }

  /** Otherwise the session left behind takes the new owner's entry with it when it ends. */
  lemma RemovalCanUnbindTheOwner(r: Registry, sessionId: int, endpoint: Endpoint)
    requires Exact(r) && sessionId in r.byId
    requires endpoint in r.byEndpoint && r.byEndpoint[endpoint] != sessionId
    ensures var r' := Rebound(r, sessionId, endpoint);
            && GetByEndpoint(r', endpoint) == Some(r'.byId[sessionId])
            && GetByEndpoint(Removed(r', r.byEndpoint[endpoint]), endpoint) == None
            && sessionId in Removed(r', r.byEndpoint[endpoint]).byId
  {
  }

  // Numbering.

  /** `allocate_sequence`: reliable and unreliable packets are numbered by separate counters. */
  function Allocate(r: Registry, sessionId: int, typeFlags: nat): (Registry, int) {
    if sessionId !in r.byId then (r, 0)
    else
      var s := r.byId[sessionId];
      if HasFlag(typeFlags, FLAG_RELIABLE)
      then (WithSession(r, sessionId, s.(requestNumber := s.requestNumber + 1)), s.requestNumber)
      else (WithSession(r, sessionId, s.(sequenceNumber := s.sequenceNumber + 1)), s.sequenceNumber + 1)
  }

  function WithSession(r: Registry, sessionId: int, s: Session): Registry {
    r.(byId := r.byId[sessionId := s])
  }

  /** The numbers one session's next messages get, given their flags. */
  function AllocateAll(r: Registry, sessionId: int, flags: seq<nat>): (Registry, seq<int>)
    decreases |flags|
  {
    if flags == [] then (r, [])
    else
      var (r1, n) := Allocate(r, sessionId, flags[0]);
      var (r2, ns) := AllocateAll(r1, sessionId, flags[1..]);
      (r2, [n] + ns)
  }

  /** How many of the flag words are reliable. */
  function ReliableCount(flags: seq<nat>): nat {
    if flags == [] then 0 else (if HasFlag(flags[0], FLAG_RELIABLE) then 1 else 0) + ReliableCount(flags[1..])
  }

  /**
    The reliable numbers of an epoch are 0, 1, 2, ... without gap, whatever
    unreliable messages come between: the i-th message, if reliable, gets the
    count of reliable ones before it.
   */
  lemma {:induction false} ReliableNumbersAreConsecutive(r: Registry, sessionId: int, flags: seq<nat>, i: nat)
    requires sessionId in r.byId && i < |flags|
    ensures var (_, ns) := AllocateAll(r, sessionId, flags);
            && |ns| == |flags|
            && (HasFlag(flags[i], FLAG_RELIABLE) ==>
                  ns[i] == r.byId[sessionId].requestNumber + ReliableCount(flags[..i]))
            && (!HasFlag(flags[i], FLAG_RELIABLE) ==>
                  ns[i] == r.byId[sessionId].sequenceNumber + i + 1 - ReliableCount(flags[..i]))
    decreases |flags|
  {
    var (r1, n) := Allocate(r, sessionId, flags[0]);
    if i == 0 {
      if |flags| > 1 { ReliableNumbersAreConsecutive(r1, sessionId, flags[1..], 0); }
    } else {
      ReliableNumbersAreConsecutive(r1, sessionId, flags[1..], i - 1);
      assert flags[..i][0] == flags[0] && flags[..i][1..] == flags[1..][..i - 1];
    }
  }

  /** An epoch begins with a restart or an adoption. */
  ghost predicate EpochBegins(r: Registry, sessionId: int, r': Registry) {
    || (sessionId in r.byId && r' == Restarted(r, sessionId))
    || exists h: Handoff :: h.sessionId == sessionId && r' == Adopted(r, h)
  }

  /**
    Counted from the beginning of its epoch, the session's reliable message with
    i reliable ones before it gets number i.
   */
  lemma EpochCountsFromZero(r: Registry, sessionId: int, r': Registry, flags: seq<nat>, i: nat)
    requires EpochBegins(r, sessionId, r') && i < |flags| && HasFlag(flags[i], FLAG_RELIABLE)
    ensures |AllocateAll(r', sessionId, flags).1| == |flags|
    ensures AllocateAll(r', sessionId, flags).1[i] == ReliableCount(flags[..i])
  {
    assert sessionId in r'.byId && r'.byId[sessionId].requestNumber == 0;
    ReliableNumbersAreConsecutive(r', sessionId, flags, i);
  }

  /** The unreliable counter goes on where it was, or where the login's handoff left it. */
  lemma UnreliableNumbersGoOn(r: Registry, sessionId: int, h: Handoff, flags: seq<nat>)
    requires sessionId in r.byId && flags != [] && !HasFlag(flags[0], FLAG_RELIABLE)
    ensures AllocateAll(Restarted(r, sessionId), sessionId, flags).1[0] == AllocateAll(r, sessionId, flags).1[0]
    ensures AllocateAll(Adopted(r, h), h.sessionId, flags).1[0] == h.sequenceNumber + 1
  {
    ReliableNumbersAreConsecutive(Restarted(r, sessionId), sessionId, flags, 0);
    ReliableNumbersAreConsecutive(r, sessionId, flags, 0);
    ReliableNumbersAreConsecutive(Adopted(r, h), h.sessionId, flags, 0);
  }

  class SessionRegistry {
    var byId: map<int, Session>
    var byEndpoint: map<Endpoint, int>

    constructor ()
      ensures State() == EMPTY
    {
      byId, byEndpoint := map[], map[];
    }

    function State(): Registry
      reads this
    {
      Registry(byId, byEndpoint)
    }

    method Adopt(h: Handoff) returns (session: Session)
      modifies this
      ensures State() == Adopted(old(State()), h)
      ensures session == NewSession(h)
    {
      if h.sessionId in byId {
        byEndpoint := byEndpoint - {byId[h.sessionId].endpoint};
      }
      if h.endpoint in byEndpoint {
        var superseded := byEndpoint[h.endpoint];
        byEndpoint := byEndpoint - {h.endpoint};
        byId := byId - {superseded};
      }
      session := NewSession(h);
      byId := byId[session.sessionId := session];
      byEndpoint := byEndpoint[session.endpoint := session.sessionId];
      assert byEndpoint == Adopted(old(State()), h).byEndpoint;
    }

    method RestartReliable(sessionId: int)
      modifies this`byId
      ensures State() == Restarted(old(State()), sessionId)
    {
      if sessionId in byId {
        var session := byId[sessionId];
        session := session.(requestNumber := 0);
        session := session.(lastIncoming := -1);
        session := session.(held := map[]);
        byId := byId[sessionId := session];
      }
    }

    method RebindEndpoint(sessionId: int, endpoint: Endpoint)
      modifies this
      ensures State() == Rebound(old(State()), sessionId, endpoint)
    {
      if sessionId in byId {
        byEndpoint := byEndpoint - {byId[sessionId].endpoint};
        byEndpoint := byEndpoint - {endpoint};
        byId := byId[sessionId := byId[sessionId].(endpoint := endpoint)];
        byEndpoint := byEndpoint[endpoint := sessionId];
      }
    }

    method Remove(sessionId: int)
      modifies this
      ensures State() == Removed(old(State()), sessionId)
    {
      if sessionId in byId {
        var endpoint := byId[sessionId].endpoint;
        byId := byId - {sessionId};
        byEndpoint := byEndpoint - {endpoint};
      }
    }

    method AllocateSequence(sessionId: int, typeFlags: nat) returns (value: int)
      modifies this`byId
      ensures (State(), value) == Allocate(old(State()), sessionId, typeFlags)
    {
      if sessionId !in byId {
        return 0;
      }
      var session := byId[sessionId];
      if HasFlag(typeFlags, FLAG_RELIABLE) {
        value := session.requestNumber;
        byId := byId[sessionId := session.(requestNumber := session.requestNumber + 1)];
      } else {
        value := session.sequenceNumber + 1;
        byId := byId[sessionId := session.(sequenceNumber := value)];
      }
    }

    /** Place one received number in the session's window; an unknown session reports a duplicate. */
    method AcceptIncoming(sessionId: int, sequence: int) returns (receipt: Receipt)
      modifies this`byId
      ensures old(sessionId !in byId) ==> receipt == Duplicate && byId == old(byId)
      ensures old(sessionId in byId) ==>
                && receipt == Accept(old(byId[sessionId]).lastIncoming, old(byId[sessionId]).held.Keys, sequence)
                && byId == if receipt == Deliver
                           then old(byId)[sessionId := old(byId[sessionId]).(lastIncoming := sequence)]
                           else old(byId)
    {
      if sessionId !in byId {
        return Duplicate;
      }
      var session := byId[sessionId];
      var last := session.lastIncoming;
      if last < 0 {
        byId := byId[sessionId := session.(lastIncoming := sequence)];
        return Deliver;
      }
      if sequence <= last || sequence in session.held {
        return Duplicate;
      }
      if sequence == last + 1 {
        byId := byId[sessionId := session.(lastIncoming := sequence)];
        return Deliver;
      }
      return Hold;
    }

    method SetLobby(sessionId: int, lobbyId: int)
      modifies this`byId
      ensures State() == WithLobby(old(State()), sessionId, lobbyId)
    {
      if sessionId in byId {
        byId := byId[sessionId := byId[sessionId].(lobbyId := lobbyId)];
      }
    }

    method SetRoom(sessionId: int, roomId: int)
      modifies this`byId
      ensures State() == WithRoom(old(State()), sessionId, roomId)
    {
      if sessionId in byId {
        byId := byId[sessionId := byId[sessionId].(roomId := roomId)];
      }
    }
  }
}
