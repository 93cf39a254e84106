/**
  How outgoing messages get their flags and numbers (opensnap/core/context.py),
  and the bare ACK of a packet that is not handled now (`_transport_ack`,
  opensnap/core/engine.py).
 */
module Context {
  import opened Snap
  import opened Sessions
  import opened Transport
  import opened Engine
  import WindowProtocol

  const CMD_SEND := 0x0F
  const CMD_SEND_TARGET := 0x10

  datatype Outgoing = Outgoing(
    endpoint: Endpoint,
    typeFlags: nat,
    packetNumber: int,
    command: int,
    sessionId: int,
    sequence: int,
    acknowledge: int,
    payload: seq<Byte>,
    source: Option<int>)

  function Or<T>(x: Option<T>, otherwise: T): T {
    if x.Some? then x.value else otherwise
  }

  /**
    `HandlerContext.reply`. An answer to a reliable request on the request's own
    session is reliable, and every answer is numbered by its session's counter
    of its own kind; a bare ACK takes no number and is never made reliable.
   */
  method Reply(
    sessions: SessionRegistry, request: Message, typeFlags: nat, command: int, payload: seq<Byte>,
    endpoint: Option<Endpoint>, sessionId: Option<int>, packetNumber: Option<int>, acknowledge: Option<int>)
    returns (m: Outgoing)
    modifies sessions
    ensures m.endpoint == Or(endpoint, request.endpoint) && m.sessionId == Or(sessionId, request.sessionId)
    ensures m.command == command && m.payload == payload && m.source == None
    ensures m.acknowledge == Or(acknowledge, request.sequence)
    ensures HasFlag(m.typeFlags, FLAG_RELIABLE) <==>
              || HasFlag(typeFlags, FLAG_RELIABLE)
              || (command != CMD_ACK && request.Reliable() && m.sessionId == request.sessionId)
    ensures WithFlag(m.typeFlags, FLAG_RELIABLE) == WithFlag(typeFlags, FLAG_RELIABLE)
    ensures if command == CMD_ACK && payload == [] then
              m.sequence == 0 && m.packetNumber == 0 && sessions.State() == old(sessions.State())
            else
              && (sessions.State(), m.sequence) == Allocate(old(sessions.State()), m.sessionId, m.typeFlags)
              && m.packetNumber == Or(packetNumber, request.packetNumber)
  {
    var outEndpoint := Or(endpoint, request.endpoint);
    var outSession := Or(sessionId, request.sessionId);
    var ackNumber := Or(acknowledge, request.sequence);
    var flags := typeFlags;
    var sequence, packet := 0, 0;
    if !(command == CMD_ACK && payload == []) {
      if command != CMD_ACK && request.Reliable() && outSession == request.sessionId {
        flags := WithFlag(flags, FLAG_RELIABLE);
        ReliableBitSet(typeFlags);
      }
      sequence := sessions.AllocateSequence(outSession, flags);
      packet := Or(packetNumber, request.packetNumber);
    }
    m := Outgoing(outEndpoint, flags, packet, command, outSession, sequence, ackNumber, payload, None);
  }

  lemma ReliableBitSet(flags: nat)
    ensures HasFlag(WithFlag(flags, FLAG_RELIABLE), FLAG_RELIABLE)
    ensures WithFlag(WithFlag(flags, FLAG_RELIABLE), FLAG_RELIABLE) == WithFlag(flags, FLAG_RELIABLE)
  {
    assert !HasFlag(flags, FLAG_RELIABLE) ==> (flags + FLAG_RELIABLE) / FLAG_RELIABLE == flags / FLAG_RELIABLE + 1;
  }

  /** `HandlerContext.direct`: a message to one session, numbered by that session's counter of its kind. */
  method Direct(
    sessions: SessionRegistry, endpoint: Endpoint, sessionId: int, typeFlags: nat, command: int, payload: seq<Byte>,
    packetNumber: int, acknowledge: int, source: Option<int>) returns (m: Outgoing)
    modifies sessions
    ensures (sessions.State(), m.sequence) == Allocate(old(sessions.State()), sessionId, typeFlags)
    ensures m
         == Outgoing(endpoint, typeFlags, packetNumber, command, sessionId, m.sequence, acknowledge, payload, source)
  {
    var sequence := sessions.AllocateSequence(sessionId, typeFlags);
    m := Outgoing(endpoint, typeFlags, packetNumber, command, sessionId, sequence, acknowledge, payload, source);
  }

  function FlagsOf(ms: seq<Message>): (flags: seq<nat>)
    ensures |flags| == |ms| && forall i :: 0 <= i < |ms| ==> flags[i] == ms[i].typeFlags
  {
    seq(|ms|, i requires 0 <= i < |ms| => ms[i].typeFlags)
  }

  /** Submitted as they are numbered, an epoch's reliable messages are an order the peer's window can take. */
  lemma EpochIsASafePlan(r: Registry, sessionId: int, r': Registry, plan: seq<Message>)
    requires EpochBegins(r, sessionId, r') && forall m :: m in plan ==> m.Reliable()
    requires var numbers := AllocateAll(r', sessionId, FlagsOf(plan)).1;
             forall i :: 0 <= i < |plan| && i < |numbers| ==> plan[i].sequence == numbers[i]
    ensures WindowProtocol.ValidPlan(plan) && WindowProtocol.SafeOrder(plan)
  {
    forall i | 0 <= i < |plan| ensures plan[i].sequence == i {
      assert plan[i] in plan && forall k :: 0 <= k < i ==> plan[k] in plan;
      EpochCountsFromZero(r, sessionId, r', FlagsOf(plan), i);
      AllReliable(FlagsOf(plan)[..i]);
    }
    WindowProtocol.AllocationOrderIsSafe(plan);
  }

  lemma {:induction false} AllReliable(flags: seq<nat>)
    requires forall i :: 0 <= i < |flags| ==> HasFlag(flags[i], FLAG_RELIABLE)
    ensures ReliableCount(flags) == |flags|
  {
    if flags != [] { AllReliable(flags[1..]); }
  }

  /** The flags of the bare ACK: the packet's channel, the room's when it has none, with the response bit. */
  function AckFlags(m: Message): nat {
    var room, lobby := HasFlag(m.typeFlags, FLAG_ROOM), HasFlag(m.typeFlags, FLAG_LOBBY);
    var relay := HasFlag(m.typeFlags, FLAG_RELAY);
    if m.command == CMD_SEND_TARGET then FLAG_ROOM + FLAG_RESPONSE
    else if m.command == CMD_SEND then
      if relay && lobby then FLAG_ROOM + FLAG_LOBBY + FLAG_RESPONSE
      else if relay && room then FLAG_ROOM + FLAG_RESPONSE
      else if room || !lobby then FLAG_ROOM + FLAG_RESPONSE
      else FLAG_LOBBY + FLAG_RESPONSE
    else
      (if room || !lobby then FLAG_ROOM else 0) + (if lobby then FLAG_LOBBY else 0) + FLAG_RESPONSE
  }

  /** `_transport_ack` */
  method TransportAck(sessions: SessionRegistry, m: Message) returns (ack: Outgoing)
    modifies sessions
    ensures sessions.State() == old(sessions.State())
    ensures ack == Outgoing(m.endpoint, AckFlags(m), 0, CMD_ACK, m.sessionId, 0, m.sequence, [], None)
  {
    AckBits(m);
    ack := Reply(sessions, m, AckFlags(m), CMD_ACK, [], None, Some(m.sessionId), None, None);
    assert HasFlag(ack.typeFlags, FLAG_RELIABLE) == HasFlag(AckFlags(m), FLAG_RELIABLE);
    SameFlags(ack.typeFlags, AckFlags(m));
  }

  lemma SameFlags(a: nat, b: nat)
    requires WithFlag(a, FLAG_RELIABLE) == WithFlag(b, FLAG_RELIABLE)
    requires HasFlag(a, FLAG_RELIABLE) == HasFlag(b, FLAG_RELIABLE)
    ensures a == b
  {
  }

  /** A bare ACK is a response and not reliable; only for a packet of the lobby channel alone has it no room bit. */
  lemma AckBits(m: Message)
    ensures HasFlag(AckFlags(m), FLAG_RESPONSE) && !HasFlag(AckFlags(m), FLAG_RELIABLE)
    ensures HasFlag(AckFlags(m), FLAG_ROOM) <==>
              !(&& HasFlag(m.typeFlags, FLAG_LOBBY) && !HasFlag(m.typeFlags, FLAG_ROOM)
                && m.command != CMD_SEND_TARGET && !(m.command == CMD_SEND && HasFlag(m.typeFlags, FLAG_RELAY)))
  {
  }

  /** The message as its receiver decodes it. */
  function Decoded(ack: Outgoing, at: Endpoint): Message
    requires ack.sequence >= 0
  {
    Message(at, ack.typeFlags, ack.packetNumber, ack.command, ack.sessionId, ack.sequence, ack.acknowledge,
            ack.payload, false)
  }

  /**
    At the sender of the packet the bare ACK retires exactly that packet, of
    that session at the address the ACK came from; and it is not itself
    acknowledged, being unreliable.
   */
  lemma AckRetiresItsPacket(m: Message, ack: Outgoing, at: Endpoint, resolve: int -> int)
    requires ack == Outgoing(m.endpoint, AckFlags(m), 0, CMD_ACK, m.sessionId, 0, m.sequence, [], None)
    ensures forall k :: AckedBy([Decoded(ack, at)], at, resolve, k)
                   == if k == SessionKey(at, resolve(m.sessionId)) then {m.sequence} else {}
    ensures !Windowed(Decoded(ack, at))
  {
    AckBits(m);
    var a := Decoded(ack, at);
    forall k
      ensures AckedBy([a], at, resolve, k) == if k == SessionKey(at, resolve(m.sessionId)) then {m.sequence} else {}
    {
      assert a in [a];
    }
  }
}
