# OpenSNAP in Dafny

OpenSNAP is a server for the SN@P online service of several PlayStation 2
games. This project models the parts of it that hold state or do arithmetic,
and proves what they are for:

- the reliable UDP layer: the sender's window of 16 with its deferred queue,
  the receiver's window with its held packets, both ends together over a network
  that loses, duplicates and reorders, one whole turn of the receive loop over
  every session's channel (`Transport`), the engine's drain loop over the
  sessions of all clients with what it acknowledges, and the paced queue of
  framed clients;
- the session and room registries, and three games on top of them: the lobby of
  Outbreak (File#1 and File#2) with its scenario window and Area counts,
  Monster Hunter's Towns and quests, with who is let in and who is told what,
  and Auto Modellista's post-game barrier;
- game records: the upsert rules, their evaluation by different databases, and
  the ranking of a board;
- wire formats: the SN@P datagram with its bundles, Capcom's APP frames and
  masked fields, and the library's own SHA-1.

Each Dafny file is one module (`FramedLink.dfy` holds `Framing`,
`FramedSession.dfy` holds `FramedSending`). Where the server updates objects in
place there is a class whose methods are proved against functions on values,
and the properties are lemmas about those functions. `dafny verify
dfyconfig.toml` checks all of it.

The properties that turned out not to hold of the code are stated with the
exact condition under which they do:

- the receive window is overrun when packets are submitted out of allocation
  order by 16 or more (`WindowProtocol.UnsafeOrderOverrunsWindow`);
- a framed reliable packet is lost for good when an unreliable message with the
  same number leaves after it (`FramedSending.PumpIsSoundIff`, `ReplacedIsLost`);
- a port move merges two addresses' queues only when they do not clash
  (`Channel.MoveConservesIff`), and leaves the endpoint table exact only when
  nobody else is bound there (`Sessions.RebindIsExactIff`);
- a login whose handoff supersedes a room member leaves that member in the room
  for ever (`OutbreakRooms.StepKeepsIndexIff`, `MonsterHunterTowns.StepKeepsGoodIff`);
- an Outbreak player that logs in again leaves its room unannounced
  (`OutbreakWindow.ReloginIsSilent`), and with a new handoff its Area too, so
  that the others count it until they query the Area again
  (`OutbreakAreas.ShownIsThePopulation`);
- a Monster Hunter Town loses track of hunters who are away when its Town flag
  is taken off (`MonsterHunterStrays.StepPlacesOnceIff`,
  `StrandedHunterCannotReturn`), and a join across Areas, which takes a hunter
  out of its own Area's rooms (`MonsterHunterTowns.StepKeepsGoodIff`), puts it
  into two Towns later (`MonsterHunterStrays.StrayingEndsInTwoTowns`);
- Auto Modellista's room exit is sent twice for one game exactly when every
  session sends another end marker and another result after the first
  (`PostGameBarrier.SecondExitIff`, `OneExitWithoutLateEndMarkers`);
- decoding and encoding are inverse only where a bundle's children carry
  sequence 0 (`CodecInverse.RoundTripIff`, `EncodeAfterDecodeIff`).

## Model

| member | source | states |
|---|---|---|
| Receiver.ReassemblyIsExact | opensnap/core/sessions.py:188-204 | Whatever order packets arrive in, with any loss and duplicates, what has been handed on since the epoch's first packet is the maximal contiguous run of what was received, in order and once each, and what is held is exactly the rest; the next expected number is never held. |
| Receiver.ArrivalOrderIrrelevant | opensnap/core/sessions.py:188-204 | Two arrival orders of the same packets after the same first one leave the same window: same delivery, same held table. |
| Receiver.NothingIsSkippedIff | opensnap/core/sessions.py:195-198 | Everything received is delivered or held if and only if the epoch's first packet was its lowest; a packet below that base is never handed on. |
| Channel.FlushConserves | opensnap/udp_server.py:965-979 | A flush moves deferred packets behind the sent ones without losing, repeating or reordering any, keeps the 16-packet bound, and stops only when the head of the queue does not fit. |
| Channel.SubmitAllConserves | opensnap/udp_server.py:917-932 | Submitting appends to sent-then-deferred in order, keeps the bound of 16 in flight and never stalls a channel that was not stalled. |
| Channel.SendAllConserves | opensnap/udp_server.py:442-456 | One send pass (flush, submit, flush): sent followed by deferred is what it was followed by the new messages, at most 16 are in flight, and the channel is left unstalled. |
| Channel.SendAllTakes | opensnap/udp_server.py:442-456 | A send pass retires nothing: in flight afterwards is what was in flight and what went out for the first time, and no other number. |
| Channel.StallNeedsInflight | opensnap/udp_server.py:939-979 | Deferred work on an unstalled channel means something is in flight, and with nothing in flight the next flush always sends. |
| Channel.MoveConservesIff | opensnap/udp_server.py:683-709 | A port move loses no packet if and only if the new address has none in flight of the same number and not both addresses have deferred work. |
| Channel.ClashesHappen | opensnap/udp_server.py:683-709 | Both losses happen to any two channels that took two packets each, 16 apart and with the same numbers: the packet in flight and the deferred one of the new address are gone. |
| Channel.MoveOntoIdle | opensnap/udp_server.py:683-709 | Onto an idle address a move only re-addresses: same numbers in flight, same order, still unstalled, still within the window. |
| WindowProtocol.ReceiveWindowSafety | opensnap/udp_server.py:525-551 | Over every run with loss, duplication and reordering of packets and ACKs, every reliable number ever sent is below the receiver's next expected number + 16, and so is everything it holds, for submissions in a safe order. |
| WindowProtocol.AllocationOrderIsSafe | opensnap/core/sessions.py:173-186 | Submitting in the order numbers are allocated is a safe order. |
| WindowProtocol.UnsafeOrderOverrunsWindow | opensnap/udp_server.py:939-952 | The condition is exact: from any order that is not safe there is a loss-free run that sends past the receiver's 16 slots. |
| WindowProtocol.ResultAheadOfCallbacksIsSafeIff | opensnap/plugins/outbreak/plugin.py:457-469 | A handler that allocates k callbacks and then the result it emits ahead of them keeps the order safe if and only if k is below 16. |
| WindowProtocol.DeliveredInOrderOnce | opensnap/core/sessions.py:16-22 | In every run what the receiver hands on are planned packets, consecutive in number and once each. |
| WindowProtocol.CanFinish | opensnap/udp_server.py:343-349 | From every reachable state some continuation gets every submitted packet sent and acknowledged with nothing deferred: no run is stuck. |
| WindowProtocol.FinishedMeansDelivered | opensnap/udp_server.py:525-551 | Once a plan numbered from 0 is sent and acknowledged, all of it has been delivered, in number order. |
| UdpSender.InflightCount | opensnap/udp_server.py:934-937 | Counting keys of one session counts its in-flight numbers, so the flat table and the per-session view agree. |
| UdpSender.UdpSender.PendingCountForSession | opensnap/udp_server.py:934-937 | The loop returns the number of packets in flight for one endpoint and session. |
| UdpSender.UdpSender.OldestPendingSequenceForSession | opensnap/udp_server.py:954-963 | The loop returns the lowest in-flight number of the session, or none exactly when nothing is in flight. |
| UdpSender.UdpSender.InflightWindowHasRoom | opensnap/udp_server.py:939-952 | True exactly when fewer than 16 are in flight and the number is less than 16 above every one of them. |
| UdpSender.UdpSender.SendEncodedMessage | opensnap/udp_server.py:809-838 | A first send enters the packet in its own session's channel and leaves every other channel alone. |
| UdpSender.UdpSender.ShouldDeferReliable | opensnap/udp_server.py:917-926 | A packet is deferred exactly when it is reliable and its session has deferred work or no room. |
| UdpSender.UdpSender.EnqueueDeferredReliable | opensnap/udp_server.py:928-932 | Deferring appends to the one session's queue. |
| UdpSender.UdpSender.FlushDeferredReliable | opensnap/udp_server.py:965-979 | Flushing the tables flushes every session's channel, independently of the visiting order. |
| UdpSender.UdpSender.SendMessages | opensnap/udp_server.py:442-456 | The in-place pass does to every channel exactly what the specified send pass does, leaves every channel unstalled and none above 16 in flight. |
| UdpSender.UdpSender.ClearReliablePending | opensnap/udp_server.py:525-551 | An ACK retires exactly the packet of that address, session and number, from no other channel. |
| UdpSender.UdpSender.ClearSession | opensnap/udp_server.py:657-719 | Dropping a session at an endpoint empties its channel and no other. |
| UdpSender.UdpSender.ForgetSessionReliables | opensnap/udp_server.py:674-681 | Forgetting a session empties its channel on every port and leaves all other sessions alone. |
| UdpSender.UdpSender.MoveSessionTransport | opensnap/udp_server.py:683-709 | The re-keying loops move one session's channel to the new endpoint as specified and touch no other. |
| UdpSender.UdpSender.Resend | opensnap/udp_server.py:553-607 | A resend repeats the stored message and changes no channel. |
| UdpSender.UdpSender.RetransmitDue | opensnap/udp_server.py:553-607 | A resend pass leaves every channel, the datagrams sent, the sessions dropped and the clean-up messages exactly as a visit of each key in order does, with no channel stalled and none over its window. |
| UdpSender.UdpSender.TimeOutSession | opensnap/udp_server.py:748-771 | Timing a session out empties its channel, sends the clean-up messages behind what every other channel had, and keeps the order and window guarantees. |
| UdpSender.UdpSender.ReadAcks | opensnap/udp_server.py:483-501 | The loop reads exactly the acknowledgements of the datagram's own responses, for the session the header resolves to. |
| UdpSender.UdpSender.ProcessTransportAcks | opensnap/udp_server.py:483-551 | Every acknowledged number leaves its own channel and nothing else leaves any channel. |
| UdpSender.UdpSender.ReceiveLoopTurn | opensnap/udp_server.py:330-367 | One turn of the receive loop leaves every channel exactly as specified: an acknowledged number of a session not moved is neither in flight nor resent unless it was still waiting or sent in the turn; a session neither moved, restarted nor dropped has all that was sent to it behind its earlier work; nothing is stalled, and the window holds. |
| Transport.AcknowledgedIsRetired | opensnap/udp_server.py:483-551 | An acknowledged number of a session not moved is not in flight after the turn and not resent in it, unless a message of that number still waited or was sent in the turn. |
| Transport.TurnKeeps | opensnap/udp_server.py:343-367 | A session not dropped has what was sent to it behind the work left to it, in order and none lost, and in flight exactly what was left in flight and what went out for the first time. |
| Transport.RestartedHasOnlyTheNew | opensnap/udp_server.py:674-681 | A restarted session id keeps exactly what the turn sent to it, nothing of the numbering before. |
| Transport.MovedPacketsArrive | opensnap/udp_server.py:683-709 | A moved session's unacknowledged packets in flight are in flight at the new endpoint after the turn. |
| Transport.DroppedForAReason | opensnap/udp_server.py:553-607 | A pass drops only sessions that are gone, possibly by a timeout of the same pass, or silent. |
| Transport.EveryVisitTreats | opensnap/udp_server.py:553-607 | A pass resends every due packet that is in flight when its key comes up and not dropped there. |
| Transport.ResentWasSupplied | opensnap/udp_server.py:553-607 | Nothing is resent but what was left in flight, waited, or was sent in the turn. |
| Sessions.SoundIsKept | opensnap/core/sessions.py:88-148 | Every registry operation keeps every endpoint entry naming a live session with that endpoint. |
| Sessions.AdoptTakesOver | opensnap/core/sessions.py:88-110 | A login takes over its endpoint, pushes out exactly the sessions bound there, and keeps an exact endpoint table exact. |
| Sessions.RebindIsExactIff | opensnap/core/sessions.py:129-140 | Following a client to a new port keeps the endpoint table exact if and only if no other session is bound there. |
| Sessions.RemovalCanUnbindTheOwner | opensnap/core/sessions.py:142-148 | Otherwise the session left behind takes the new owner's entry with it when it ends, though the owner is still live. |
| Sessions.ReliableNumbersAreConsecutive | opensnap/core/sessions.py:173-186 | The reliable messages of an epoch are numbered without a gap from the session's counter, whatever unreliable ones come between, and those have a counter of their own. |
| Sessions.EpochCountsFromZero | opensnap/core/sessions.py:88-127 | From a restart or an adoption on the i-th reliable message gets number i, counted from 0. |
| Sessions.UnreliableNumbersGoOn | opensnap/core/sessions.py:88-127 | A restart leaves the unreliable counter alone, a login sets it to its handoff's. |
| Context.EpochIsASafePlan | opensnap/core/sessions.py:173-186 | So whatever reliable messages an epoch allocates are a plan numbered from 0 in a safe order, which is what the window protocol assumes. |
| Context.Reply | opensnap/core/context.py:41-97 | A reply goes where the request came from, acknowledges it, is reliable exactly as asked or as the request to the same session was, and takes a number of its kind, a bare ACK taking none. |
| Context.Direct | opensnap/core/context.py:99-125 | A message to one session takes the next number of its kind from that session's counters. |
| Sessions.SessionRegistry.Adopt | opensnap/core/sessions.py:88-110 | The in-place steps leave the two tables as specified and return the new session. |
| Sessions.SessionRegistry.RestartReliable | opensnap/core/sessions.py:112-127 | An epoch starts with both reliable counters and the held table cleared, and nothing else changed. |
| Sessions.SessionRegistry.RebindEndpoint | opensnap/core/sessions.py:129-140 | The session moves to the endpoint; the entries of both endpoints are replaced by one. |
| Sessions.SessionRegistry.Remove | opensnap/core/sessions.py:142-148 | The session and the entry of its endpoint go. |
| Sessions.SessionRegistry.AllocateSequence | opensnap/core/sessions.py:173-186 | The number returned and the counter advanced are those of the message's kind. |
| Sessions.SessionRegistry.AcceptIncoming | opensnap/core/sessions.py:188-204 | The receipt is the window rule's and only a delivered packet moves the session's window. |
| Engine.TurnShrinks | opensnap/core/engine.py:168-182 | Every turn of the drain loop lowers a natural measure: messages in the work list and held tables never grow, and a turn consumes a message or puts a whole datagram into the held table with nothing released. |
| Engine.DrainKeeps | opensnap/core/engine.py:168-182 | When the drain loop ends no live session's next expected number is held, and the tables stay well formed, for any held table and any handlers. |
| EngineEpochs.EveryEpochIsExact | opensnap/core/engine.py:168-309 | In every run from the constructor (any datagrams of any sessions in any shape, any handlers, ticks and timeouts in between) every live session has accepted, in order and once each, the maximal contiguous run of the numbers its current epoch was offered from the first on, and holds exactly the later ones. |
| EngineEpochs.OfferAccounts | opensnap/core/sessions.py:188-204 | Offering a packet to a session's window leaves every number offered since the base accepted, held or queued, a released one included. |
| EngineReassembly.DeliverPass | opensnap/core/engine.py:184-309 | A bundle that is delivered is dispatched whole, its children right after their outer packet. |
| EngineReassembly.OtherPass | opensnap/core/engine.py:229-263 | A bundle that is held or a repeat dispatches nothing, its children included. |
| EngineReassembly.ForeignDrain | opensnap/core/engine.py:168-309 | Other sessions' datagrams of any shape, with all they release, leave the session's window and its dispatches alone. |
| EngineReassembly.LightKeeps | opensnap/core/engine.py:221-247 | The session's bare ACKs and unreliable messages do not touch its window. |
| EngineReassembly.BundleRefinesReceive | opensnap/core/engine.py:168-309 | Handling one datagram of a session (one top-level reliable packet with its children), with whatever it releases, is one step of the receive window. |
| EngineReassembly.EngineRefinesReceiver | opensnap/core/engine.py:168-309 | Over every run from the beginning of a session's epoch, its bundles arriving among its bare ACKs and unreliable messages, other sessions' datagrams and logins, and the server's own ticks and timeouts, the engine's session is the receive window's state over those bundles. |
| EngineReassembly.EngineReassemblesExactly | opensnap/core/engine.py:168-263 | In every such run what is dispatched for the session since then is the maximal contiguous run of its bundles from the first received on, each as its first copy had it, in order and once each with children after their outer packet; the session holds exactly the rest. |
| EngineReassembly.EveryOtherCopyIsAcknowledged | opensnap/core/engine.py:221-263 | In every such run each copy of a bundle that does not continue the run received so far, a repeat or one ahead of a gap, is acknowledged by the engine itself, exactly once and in order of arrival, and nothing else is. |
| EngineAcks.EveryMessageHasOneFate | opensnap/core/engine.py:184-263 | In a pass over any datagram of any sessions every message it comes to is ignored as a bare ACK, acknowledged, or run: a repeat and a packet ahead of a missing one are acknowledged once and in order, all else is run. |
| EngineAcks.FateInEveryRun | opensnap/core/engine.py:221-263 | In every run a copy of a live session's packet continues its epoch exactly with the number after the last accepted; it is a repeat exactly when the epoch was offered it before or it is below the first, and ahead exactly when it leaves a gap. |
| Context.TransportAck | opensnap/core/engine.py:525-551 | The bare ACK goes back to the packet's address and session with its number, and takes no number itself. |
| Context.AckRetiresItsPacket | opensnap/core/engine.py:525-551 | Read by a peer, that ACK retires exactly its packet and is not itself windowed. |
| EngineLogin.LoginEffectsSeat | opensnap/core/game/handlers.py:72-100 | The login handler as effects on the tables is the stale session's end and then the seating every game shares. |
| Login.FoundByEndpoint | opensnap/plugins/common.py:37-64 | Where every session is found at its endpoint, a request acts for the session of its id, or without one for that at its endpoint; the stale session is any other there. |
| Login.SeatedSession | opensnap/core/game/handlers.py:72-100 | After a login the session is at its endpoint with both reliable counters afresh; the same handoff keeps its places, a new one starts over, and nobody else changes. |
| EngineLogin.LoginsAreGentle | opensnap/core/game/handlers.py:72-100 | A KICS login from elsewhere meets what reassembly asks of other sessions' messages: it leaves the epoch of every session not its own alone. |
| EngineLogin.LoginOpens | opensnap/core/game/handlers.py:87-100 | After its login datagram a session is live at the endpoint it logged in from, nothing received and nothing held, in every state where no live session's window holds the login back. |
| EngineLogin.LoginRunsIff | opensnap/core/engine.py:229-263 | A login comes to its handler exactly unless a live session's window, its own old one or that of the session at its endpoint, holds it or takes it for a repeat. |
| EngineLogin.ReassemblyFromTheLogin | opensnap/core/engine.py:168-309 | From the constructor on: a login and then any such run; what was dispatched for the session, its login apart, is exactly the run received. |
| EngineLogin.SomeRun | opensnap/core/engine.py:168-309 | One run from the constructor meets every hypothesis: two sessions log in, and numbers 0, 2, 2, 1 are dispatched as 0, 1, 2. |
| Engine.FollowingStaysOnTheHost | opensnap/core/engine.py:137-166 | Following a client moves at most one session, one its datagram names, and never to another host. |
| Engine.FollowsTheFirst | opensnap/core/engine.py:137-166 | It is the first session named whose packets now come from another port of its host; it gets the new endpoint and its entry, no other session changes, and without one nothing does. |
| Engine.SnapEngine.FollowPortChange | opensnap/core/engine.py:137-166 | The loop moves the first such session and returns the move for the transport, or changes nothing. |
| Engine.SnapEngine.HandleDatagram | opensnap/core/engine.py:97-130 | A datagram first moves its session, then goes through the drain loop. |
| Receiver.FirstCopyCounts | opensnap/core/sessions.py:188-204 | Of several copies of a packet only the first counts, whatever the others contain. |
| Engine.SnapEngine.HandleDatagramMessages | opensnap/core/engine.py:184-309 | The message loop does to sessions, held packets and dispatches exactly what one specified pass does. |
| Engine.SnapEngine.PopReadyOf | opensnap/core/engine.py:177-182 | Releases the ready held datagrams of the touched sessions, in their order, and removes them from the tables. |
| Engine.SnapEngine.HandleInOrder | opensnap/core/engine.py:168-182 | The work-list loop ends in the specified drained state. |
| Engine.SnapEngine.Dispatch | opensnap/core/engine.py:265-302 | One dispatch applies its handler's effects on the registry and is logged once. |
| Framing.FramedLink.Add | opensnap/udp_server.py:100-102 | A message joins the end of the queue with the ACK it carries, if any. |
| Framing.FramedLink.AddAck | opensnap/udp_server.py:104-109 | The loop puts the ACK on the first queued message that has none, else queues it as a message. |
| Framing.FramedLink.PopDue | opensnap/udp_server.py:119-131 | A datagram leaves only two frames after the last one and, without an ACK, only after its pacing; it carries the entry's ACK and sets the next pacing. |
| Framing.LinkConserves | opensnap/udp_server.py:100-131 | Over every run of a link, messages leave in the order they were added, none lost, and every ACK handed in is on exactly one datagram or one queue entry. |
| Framing.LinkIsPaced | opensnap/udp_server.py:119-131 | Neighbouring datagrams are two frames apart, and one without an ACK leaves only after the pacing of the one before. |
| Framing.LeavesIff | opensnap/udp_server.py:119-131 | In every run the first queued message leaves if and only if two frames have passed since the last datagram and it carries an ACK or the line has had time for the last datagram, at least 17 ms; it leaves with its ACK, and else nothing changes. |
| Framing.PacingBound | opensnap/udp_server.py:119-131 | Over a stretch whose later datagrams carry no ACK, the summed (length + 31) of all but the last is strictly below line speed x elapsed milliseconds. |
| FramedSending.FramedSession.SendEncodedMessage | opensnap/udp_server.py:809-829 | A framed reliable packet is tracked from when it is queued; a bare ACK rides on the queue; anything else is queued. |
| FramedSending.FramedSession.ResendDue | opensnap/udp_server.py:571-584 | A packet that has left the queue is queued again without its stale ACK and marked as waiting. |
| FramedSending.FramedSession.Pump | opensnap/udp_server.py:861-888 | The datagram that leaves replaces whatever is pending under its number. |
| FramedSending.NeverTwoCopies | opensnap/udp_server.py:573-584 | In every run with fresh reliable numbers no reliable packet has two copies queued. |
| FramedSending.WhatEachDoes | opensnap/udp_server.py:525-584 | An ACK ends the wait for its number alone, a reliable message is awaited from when it is queued, and a resend queues the message submitted once more without an ACK. |
| FramedSending.PumpIsSoundIff | opensnap/udp_server.py:879-887 | A frame keeps every pending packet the one submitted, waiting exactly when queued, if and only if no unreliable message leaves under a pending packet's number. |
| FramedSending.SoundWithoutClashes | opensnap/udp_server.py:861-888 | So it is over every run in which that never happens. |
| FramedSending.ReplacedIsLost | opensnap/udp_server.py:879-887 | Once such a message has taken a packet's place, no copy of the packet is ever queued again, however often it is resent. |
| FramedSending.ReplacementHappens | opensnap/udp_server.py:879-887 | A concrete run in which a reliable packet is replaced by an unreliable message of the same number and its only copy has left. |
| Rooms.ChangesKeepWellKept | opensnap/core/rooms.py:27-91 | Create, join, leave and rule changes keep every stored room non-empty, within its limit and numbered below the next id. |
| Rooms.IdsAreNeverReused | opensnap/core/rooms.py:39-50 | No change of the table gives an old id to a new room, or moves or renames a room that stays. |
| Rooms.RoomRegistry.CreateRoom | opensnap/core/rooms.py:27-51 | The new room has the next id and its host as only member. |
| Rooms.RoomRegistry.Join | opensnap/core/rooms.py:63-74 | A session gets in exactly when the room exists and has a free place or lists it already. |
| Rooms.RoomRegistry.Leave | opensnap/core/rooms.py:76-85 | The member goes, and the room with it exactly when nobody is left. |
| Rooms.RoomRegistry.SetRules | opensnap/core/rooms.py:87-91 | Only the rules word of an existing room changes. |
| Login.SeatingPlaces | opensnap/core/game/handlers.py:87-101 | After a login the live sessions are those before and the login, less the one its handoff pushed out, all others unmoved. |
| Login.Seat | opensnap/core/game/handlers.py:87-101 | Adopting, restarting and rebinding in place leave the registry as specified. |
| RoomList.UpdatesReplicate | opensnap/plugins/outbreak/plugin.py:714-743 | Applying the row and delete events of a change turns the old list of an Area into the new one, also from any view on the way between the two. |
| RoomList.UpdatesStayBetween | opensnap/plugins/outbreak/plugin.py:714-743 | An update nested in another leaves each row at its old or its new value. |
| OutbreakRooms.IndexIsExact | opensnap/plugins/outbreak/plugin.py:632-654 | A session has room id r exactly when room r lists it, so the members found by session and by room are the same set. |
| OutbreakRooms.StepKeepsIndexIff | opensnap/plugins/outbreak/plugin.py:182-209 | Every step (request, login with a nested timeout, timeout) keeps that index exact, no room empty and none above its limit of at most 4, if and only if it is not a login whose handoff throws out a session that is in a room. |
| OutbreakRooms.SeatingIsExactIff | opensnap/core/sessions.py:94-97 | The login keeps the index if and only if adopting it supersedes no room member. |
| OutbreakRooms.OrphaningHappens | opensnap/core/sessions.py:94-97 | A login whose bootstrap endpoint now belongs to a player in a room breaks the index, in every state where there is one. |
| OutbreakRooms.MembershipIsExact | opensnap/plugins/outbreak/plugin.py:317-402 | In every state reachable without such a login the index is exact. |
| OutbreakWindow.NoCallbackInTheWindow | opensnap/plugins/outbreak/plugin.py:440-469 | Over every run and for every player, no lobby callback is sent between its status 1 and its lobby status, before its login or after its end. |
| OutbreakWindow.CallbacksReachLobbyOnly | opensnap/plugins/outbreak/plugin.py:767-771 | Whatever the step, a lobby callback goes only to a player in the lobby when it is sent. |
| OutbreakWindow.DeparturesReachEveryone | opensnap/plugins/outbreak/plugin.py:632-654 | Every departure a logged-in player is owed reaches it once and in order: delivered since its login followed by those waiting for its lobby status are the departures since then, and in the lobby none waits. |
| OutbreakWindow.OwedAreDepartures | opensnap/plugins/outbreak/plugin.py:632-654 | What a player that stays in its room is owed are exactly the roommates it has no more, the silent ways out apart. |
| OutbreakWindow.ReloginIsSilent | opensnap/plugins/outbreak/plugin.py:182-188 | A player that logs in again leaves its room without anybody being told, then or later. |
| OutbreakWindow.DeliveredInOrder | opensnap/plugins/outbreak/plugin.py:455-468 | The lobby status delivers the waiting departures as callbacks, all of them and in order. |
| OutbreakList.ListedIff | opensnap/plugins/outbreak/plugin.py:745-747 | A room is listed exactly when it is open, in an Area, and fewer than the limit open rooms there are older. |
| OutbreakList.StepReplicates | opensnap/plugins/outbreak/plugin.py:694-743 | After any step, the listing before it with the events a watching client was sent applied is the listing after it, nested updates of a login included. |
| OutbreakList.ClientMirrorsTheList | opensnap/plugins/outbreak/plugin.py:694-747 | Over every run, a client that stays in an Area and reachable and applies every event holds the server's list, capped listings included. |
| OutbreakList.StepKeepsRooms | opensnap/core/rooms.py:39-50 | Every step of the plugin keeps the table well kept, never reuses an id and never moves a room. |
| OutbreakAreas.StepCounts | opensnap/plugins/outbreak2/plugin.py:705-724 | In any File#2 step, what the Area callbacks tell a watching client is exactly how its Area's population changed, apart from the members a login takes out silently. |
| OutbreakAreas.ShownIsThePopulation | opensnap/plugins/outbreak2/plugin.py:705-724 | Over every run in which a client stays reachable in an Area, the count it keeps is the Area's population plus everybody taken out silently since, so it is right if and only if there was no such login. |
| OutbreakAreas.SeatingMembers | opensnap/core/sessions.py:88-110 | A login takes out of an Area exactly its own session when it has a new handoff, and the session it pushes out; no Area callback is sent for either. |
| OutbreakAreas.NewHandoffIsSilent | opensnap/plugins/outbreak2/plugin.py:202-221 | A player in an Area that bootstraps again and logs in leaves that Area silently, in every state where there is one. |
| OutbreakAreas.LoginCounts | opensnap/plugins/outbreak2/plugin.py:202-221 | A login is counted right with the timeout nested in it, the silent ones apart. |
| OutbreakAreas.StepKeepsCapacity | opensnap/plugins/outbreak2/plugin.py:863-872 | No step, of either File, lets more players in than its capacity counts: the whole server in File#2, the Area in File#1. |
| OutbreakAreas.CapacityIsNeverExceeded | opensnap/plugins/outbreak2/plugin.py:863-872 | In every reachable state File#2 holds its server capacity and File#1 the capacity of each Area. |
| OutbreakAdmission.JoinRoomAdmitsIff | opensnap/plugins/outbreak/plugin.py:349-387 | A player gets into another room if and only if it is stored, its closed bit is clear, its password is empty or the one given, and fewer than its limit are in it; then it is one of its members; a closed, unknown or locked room leaves everything as it was. |
| OutbreakAdmission.JoinRoomAnswer | opensnap/plugins/outbreak/plugin.py:363-387 | The one answer to a join: success, refusal of a closed, unknown or full room, or the wrong password. |
| OutbreakAdmission.WrongPasswordIff | opensnap/plugins/outbreak/plugin.py:370-371 | The wrong password is answered if and only if the room is stored, open and has another, non-empty password, and the player stays where it is. |
| OutbreakAdmission.CreateRoomIff | opensnap/plugins/outbreak/plugin.py:317-347 | A room is created if and only if the player is in an Area that has fewer rooms than its limit; the player is then alone in it with what it asked for, between one and four players; else nothing changes. |
| OutbreakAdmission.JoinAreaIff | opensnap/plugins/outbreak/plugin.py:349-361 | A player gets into an Area if and only if it exists and fewer others than the capacity are counted, on the server in File#2, in the Area in File#1; else nothing changes. |
| OutbreakAdmission.ListedRowShows | opensnap/plugins/outbreak/plugin.py:705-713 | A room is listed if and only if it is open, in an Area and among the oldest up to the limit; its row counts the players in it, one to its limit, beside that limit. |
| OutbreakAdmission.WhoHearsChat | opensnap/plugins/outbreak/plugin.py:523-572 | Area chat reaches exactly the others of the Area in the lobby, in File#1 those in no room; room chat exactly the roommates in the lobby. |
| OutbreakAdmission.WhoHearsPlayers | opensnap/plugins/outbreak/plugin.py:417-438 | A scenario packet reaches every roommate, a new profile the roommates in the lobby, and nobody else. |
| OutbreakAdmission.TargetHears | opensnap/plugins/outbreak/plugin.py:601-640 | A targeted message reaches its target if that is in the lobby, and nobody else. |
| OutbreakAdmission.JoinIsAnnounced | opensnap/plugins/outbreak/plugin.py:373-386 | A join is announced to exactly the members the room had who are in the lobby, and only when it succeeds. |
| OutbreakAdmission.RulesChange | opensnap/plugins/outbreak/plugin.py:404-415 | New rules reach the one room that lists the sender and no other. |
| OutbreakAdmission.PlayerChanges | opensnap/plugins/outbreak/plugin.py:417-469 | A profile is stored exactly when it has 240 bytes, and a player is in a scenario from the one report to the other. |
| OutbreakAdmission.GettingOut | opensnap/plugins/outbreak/plugin.py:389-402 | Leaving, logging out and timing out always take the player out of its room and every room's members, and out of its Area where they should. |
| OutbreakAdmission.OnlyTheSenderMoves | opensnap/plugins/outbreak/plugin.py:317-438 | A request changes nobody's places, profile or scenario but its sender's. |
| OutbreakPlugin.OutbreakPlugin.LeaveRoom | opensnap/plugins/outbreak/plugin.py:632-654 | The loop tells exactly the companions in the lobby, notes the departure for exactly those in a scenario, and takes the player out. |
| OutbreakPlugin.OutbreakPlugin.HandleCreateGameRoom | opensnap/plugins/outbreak/plugin.py:317-347 | State and outbox are those specified, refusals included. |
| OutbreakPlugin.OutbreakPlugin.HandleJoinArea | opensnap/plugins/outbreak2/plugin.py:406-420 | State and outbox are those specified for joining an Area, in File#2 with the departure from the old Area and the arrival in the new one told to their lobby players. |
| OutbreakPlugin.OutbreakPlugin.LeaveArea | opensnap/plugins/outbreak2/plugin.py:696-703 | File#2 tells exactly the other reachable members of the Area and clears it; outside the Areas it does nothing. |
| OutbreakPlugin.OutbreakPlugin.EnterArea | opensnap/plugins/outbreak2/plugin.py:416-420 | The Area is set, the player answered, and in File#2 exactly the other reachable members of the Area told. |
| OutbreakPlugin.OutbreakPlugin.HandleJoinRoom | opensnap/plugins/outbreak/plugin.py:364-387 | State and outbox are those specified for a room join: already in, closed, wrong password, full, joined. |
| OutbreakPlugin.OutbreakPlugin.HandleLeave | opensnap/plugins/outbreak/plugin.py:389-402 | State and outbox are those specified for leaving a room or an Area. |
| OutbreakPlugin.OutbreakPlugin.HandleLogout | opensnap/plugins/outbreak/plugin.py:200-207 | State and outbox are those specified for a logout. |
| OutbreakPlugin.OutbreakPlugin.HandleChangeAttribute | opensnap/plugins/outbreak/plugin.py:404-413 | A well-formed STAT changes the rules of the sender's room and nothing else. |
| OutbreakPlugin.OutbreakPlugin.HandleChangeUserProperty | opensnap/plugins/outbreak/plugin.py:417-438 | The profile is stored and published to the reachable roommates. |
| OutbreakPlugin.OutbreakPlugin.HandleChangeUserStatus | opensnap/plugins/outbreak/plugin.py:440-469 | The window opens and closes as specified and the waiting departures go out on closing. |
| OutbreakPlugin.OutbreakPlugin.HandleSend | opensnap/plugins/outbreak/plugin.py:523-572 | Area chat, room chat and scenario packets reach exactly the recipients specified. |
| OutbreakPlugin.OutbreakPlugin.HandleSendTarget | opensnap/plugins/outbreak/plugin.py:601-628 | A send-target reaches a live reachable target only. |
| OutbreakPlugin.OutbreakPlugin.HandleRequest | opensnap/plugins/outbreak/plugin.py:694-703 | Each room-changing handler is wrapped with the list updates it causes. |
| OutbreakPlugin.OutbreakPlugin.OnSessionTimeout | opensnap/plugins/outbreak/plugin.py:166-172 | A timed-out player leaves its room, is forgotten, and the list updates follow. |
| OutbreakPlugin.OutbreakPlugin.EndSession | opensnap/core/engine.py:431-442 | The engine then removes the session. |
| OutbreakPlugin.OutbreakPlugin.HandleLoginToKics | opensnap/plugins/outbreak/plugin.py:182-198 | State and outbox of a login, with the stale session's end inside it, are those specified. |
| OutbreakPlugin.OutbreakPlugin.EndStale | opensnap/core/game/handlers.py:72-85 | Another session bound to the login's endpoint is ended first. |
| MonsterHunterTowns.DetachedLists | opensnap/plugins/monsterhunter/plugin.py:859-898 | After a detach only the kept Town listing is left of the hunter, and nobody else's listing changed. |
| MonsterHunterTowns.JoiningIsOkIff | opensnap/plugins/monsterhunter/plugin.py:562-605 | A room join keeps every hunter placed if and only if it does not succeed in another Area's room. |
| MonsterHunterTowns.RulesChangedIsOkIff | opensnap/plugins/monsterhunter/plugin.py:784-819 | A STAT keeps every hunter placed if and only if it does not take the Town flag off a Town with a hunter away. |
| MonsterHunterTowns.SeatingIsOkIff | opensnap/core/sessions.py:94-97 | A login keeps every hunter placed if and only if it pushes out nobody a room still lists. |
| MonsterHunterTowns.StepKeepsGoodIff | opensnap/plugins/monsterhunter/plugin.py:537-631 | Each step keeps every hunter in at most one Town and only in rooms of its own Area, in no quest room it is not in, no room empty and none overfull, if and only if it is not one of three: a successful join of a room in another Area, taking the flag off a Town with a hunter away, and a login that pushes out a listed hunter. |
| MonsterHunterStrays.GoodIsPlacedOnce | opensnap/plugins/monsterhunter/plugin.py:537-631 | That invariant is being placed once (at most one Town, no quest room one is not in, no room empty or overfull) together with rooms of one's own Area. |
| MonsterHunterStrays.StepPlacesOnceIff | opensnap/plugins/monsterhunter/plugin.py:537-631 | From there one step leaves hunters placed once if and only if it neither takes the flag off a Town with a hunter away nor pushes out a listed hunter. |
| MonsterHunterStrays.StrayingEndsInTwoTowns | opensnap/plugins/monsterhunter/plugin.py:574-619 | In every such state a hunter that joins a Town of another Area, departs for a quest and joins a Town of its own Area instead is a member of both. |
| MonsterHunterStrays.StrandedHunterCannotReturn | opensnap/plugins/monsterhunter/plugin.py:844-898 | A hunter away whose Town loses its flag stays listed in a room it is not in, and no return STAT with whatever rules takes it back. |
| MonsterHunterTowns.PlacesAreKeptFromTheStart | opensnap/plugins/monsterhunter/plugin.py:537-631 | From the empty server on the invariant holds over every run without such steps. |
| MonsterHunterTowns.PlacesAreKept | opensnap/plugins/monsterhunter/plugin.py:537-631 | So it is in every state of every run without such a step. |
| MonsterHunterTowns.OriginIsTheTown | opensnap/plugins/monsterhunter/plugin.py:1028-1040 | A hunter away from a Town finds it by its rules word and by no other. |
| MonsterHunterQuest.DepartureKeepsTheTown | opensnap/plugins/monsterhunter/plugin.py:607-631 | A departing leave, a quest create or a quest join from a Town leaves that Town exactly as it was, the hunter listed. |
| MonsterHunterQuest.StepKeepsAway | opensnap/plugins/monsterhunter/plugin.py:859-898 | No step of anybody else, and no own step short of giving the Town up, ends the listing; own steps leave the Town untouched. |
| MonsterHunterQuest.TownWaits | opensnap/plugins/monsterhunter/plugin.py:859-898 | Over every such run the Town goes on listing the hunter. |
| MonsterHunterQuest.ReturnLandsIff | opensnap/plugins/monsterhunter/plugin.py:784-857 | The return STAT from a quest room lands in that Town if and only if it names its rules, changes nothing in it and ends the quest membership; otherwise nothing happens. |
| MonsterHunterQuest.RoundTrip | opensnap/plugins/monsterhunter/plugin.py:607-631 | The whole trip: out of a Town by any departure, whatever happens on the way, and back into that same Town. |
| MonsterHunterList.StepReplicates | opensnap/plugins/monsterhunter/plugin.py:910-959 | After any step, the Town list before it with the events a watching client was sent applied is the Town list after it. |
| MonsterHunterList.ClientMirrorsTheTowns | opensnap/plugins/monsterhunter/plugin.py:910-959 | Over every run a client that watches one Area throughout and applies every event holds the server's Town list. |
| MonsterHunterAdmission.JoinRoomAdmitsIff | opensnap/plugins/monsterhunter/plugin.py:584-605 | A hunter gets into the room meant, the Town when a quest left its alias, if and only if it is stored and has a place or lists the hunter; a full one leaves it in no room, an unknown one changes nothing. |
| MonsterHunterAdmission.CreateRoomIff | opensnap/plugins/monsterhunter/plugin.py:537-560 | A Town is refused if and only if its Area holds 21 of its category; otherwise the hunter is alone in a new room with what it asked for. |
| MonsterHunterAdmission.JoinAreaIff | opensnap/plugins/monsterhunter/plugin.py:571-582 | A hunter gets into an Area exactly when it exists and is not full, and is then in no room and listed by none. |
| MonsterHunterAdmission.TownRowShows | opensnap/plugins/monsterhunter/plugin.py:910-929 | A room is in the Town directory if and only if it is a Town of an Area without the quest bit; its row counts everybody it lists, away or not, within its limit. |
| MonsterHunterAdmission.TownMembers | opensnap/plugins/monsterhunter/plugin.py:859-898 | A room lists all who are in it, and else only hunters of its Area, away from a Town. |
| MonsterHunterAdmission.NobodyOnAQuestIsTold | opensnap/plugins/monsterhunter/plugin.py:931-959 | A hunter on a started quest or in no Area is sent no Town event, whoever acts or is timed out. |
| MonsterHunterAdmission.QuestIdNamesTheTown | opensnap/plugins/monsterhunter/plugin.py:844-857 | Once a return has moved a hunter out of its quest, the quest room's id means the Town it is in, and leaving ends that. |
| MonsterHunterAdmission.DepartureIsAnnounced | opensnap/plugins/monsterhunter/plugin.py:679-710 | A hunter is departing by its published profile or by its preparation, which a leave forgets. |
| MonsterHunterAdmission.GettingOut | opensnap/plugins/monsterhunter/plugin.py:607-631 | Leaving the Area, logging out and timing out take the hunter out of its room and off every Town's list. |
| MonsterHunterAdmission.OnlyTheSenderMoves | opensnap/plugins/monsterhunter/plugin.py:562-631 | A request changes nobody's place or player record but its sender's. |
| MonsterHunterPlugin.MonsterHunterPlugin.Detach | opensnap/plugins/monsterhunter/plugin.py:859-898 | The in-place detach, its loop over listing Towns included, leaves the specified state. |
| MonsterHunterPlugin.MonsterHunterPlugin.LeaveListingTowns | opensnap/plugins/monsterhunter/plugin.py:890-892 | The loop takes the hunter off exactly the Towns that list it, whatever their order. |
| MonsterHunterPlugin.MonsterHunterPlugin.HandleCreateGameRoom | opensnap/plugins/monsterhunter/plugin.py:537-560 | A full Town category refuses; otherwise the room is created after the detach, and its id returned. |
| MonsterHunterPlugin.MonsterHunterPlugin.HandleJoinArea | opensnap/plugins/monsterhunter/plugin.py:571-582 | A join of an Area leaves the specified state. |
| MonsterHunterPlugin.MonsterHunterPlugin.HandleJoinRoom | opensnap/plugins/monsterhunter/plugin.py:584-605 | A room join, through the alias a quest leaves behind, leaves the specified state. |
| MonsterHunterPlugin.MonsterHunterPlugin.HandleLeave | opensnap/plugins/monsterhunter/plugin.py:607-631 | A leave keeps the Town listing exactly when it is a departure. |
| MonsterHunterPlugin.MonsterHunterPlugin.HandleChangeAttribute | opensnap/plugins/monsterhunter/plugin.py:784-819 | A STAT sets rules, returns the hunter, or does nothing, as specified. |
| MonsterHunterPlugin.MonsterHunterPlugin.ReturnToOrigin | opensnap/plugins/monsterhunter/plugin.py:844-857 | The hunter moves from the quest room to its Town and its alias remembers both. |
| MonsterHunterPlugin.MonsterHunterPlugin.HandleLogout | opensnap/plugins/monsterhunter/plugin.py:285-299 | A logout leaves the specified state. |
| MonsterHunterPlugin.MonsterHunterPlugin.OnSessionTimeout | opensnap/plugins/monsterhunter/plugin.py:235-241 | A timeout takes the hunter out of everything. |
| MonsterHunterPlugin.MonsterHunterPlugin.HandleLoginToKics | opensnap/plugins/monsterhunter/plugin.py:263-283 | A login leaves the specified state, a player record kept if there is one. |
| Records.OrderDoesNotMatter | opensnap/storage/sql.py:324-344 | A SET list that reads each stored column before writing it gives the same row evaluated left to right or all at once. |
| Records.UpdatesMeanTheSame | opensnap/storage/sql.py:324-344 | Each ranking's SET list does, for every stored and submitted row. |
| Records.OtherOrdersDiffer | opensnap/storage/sql.py:324-332 | With the sort key assigned first the two evaluations give different rows. |
| Records.UpdatedRow | opensnap/storage/sql.py:281-293 | Column by column, what an upsert leaves in the row, per ranking. |
| Records.RecordShowsItsRanking | opensnap/core/records.py:8-36 | For every sequence of submissions the row shows the latest, lowest, highest or total score, its sort key is plus or minus that score, and the time is that of the submission that first reached it. |
| Records.ShowsIsExact | opensnap/core/records.py:26-36 | Those promises leave exactly one row. |
| RecordBoard.RankIsThePosition | opensnap/storage/sql.py:295-313 | A record has rank k if and only if every top list of at least k rows shows it in position k. |
| RecordBoard.PositionIsRank | opensnap/storage/sql.py:302-313 | The row at position i of the ordered board has rank i + 1 by the SQL count. |
| RecordBoard.AheadIsThePrefix | opensnap/storage/sql.py:302-313 | The rows the WHERE clause counts as ahead are exactly those before it on the board. |
| RecordBoard.RowsAreFolds | opensnap/storage/sql.py:270-293 | Whatever else is submitted, a stored row is the fold of its own player's submissions to its own board. |
| RecordBoard.BetterRanksFirst | opensnap/storage/sql.py:295-313 | Of two rows that show their submissions the better score has the smaller rank, lower being better on a lowest-score board and higher elsewhere; equal scores go by time, equal times by user id. |
| RecordBoard.BestRanksFirst | opensnap/storage/sql.py:270-313 | In every run of the store the player whose latest, lowest, highest or total score is better ranks before the other, whatever else was submitted. |
| RecordBoard.FirstIsUnbeaten | opensnap/core/records.py:26-36 | In every run rank 1 belongs to exactly the row that no other of its board beats. |
| RecordBoard.TopIsBestFirst | opensnap/storage/sql.py:295-300 | In every run the top list is in that order, best first. |
| RecordBoard.SqlRecordStore.Submit | opensnap/storage/sql.py:270-293 | The one row of the key is inserted or updated as its ranking says, and its board is listed. |
| RecordBoard.SqlRecordStore.ApplyInOrder | opensnap/storage/sql.py:324-344 | Assigning one column after the other is the left-to-right evaluation. |
| RecordBoard.SqlRecordStore.Entry | opensnap/storage/sql.py:302-313 | The loop returns the rank the SQL count defines, and nothing for a player without a record. |
| Codec.EncodeMessages | opensnap/protocol/codec.py:97-128 | The loop builds the datagram specified, and fails on an empty list or a size word that does not fit. |
| Codec.DecodeDatagram | opensnap/protocol/codec.py:34-94 | The loop over the body gives the messages or the error specified, its bundle flag included. |
| CodecInverse.DatagramReadsBack | opensnap/protocol/codec.py:34-128 | Every list that fits the wire decodes to the messages a peer reads, whatever bundles it holds and whichever footer ends it. |
| CodecInverse.RoundTripIff | opensnap/protocol/codec.py:34-128 | Decoding an encoding returns the very same messages if and only if every child of a bundle carries sequence 0. |
| CodecInverse.BodyIsItsMessages | opensnap/protocol/codec.py:46-92 | An accepted body is exactly its messages end to end, the sequence words of children being all that decoding drops. |
| CodecInverse.EncodeAfterDecodeIff | opensnap/protocol/codec.py:34-128 | Re-encoding an accepted datagram gives it back if and only if its children's sequence words are 0. |
| CodecBytes.EncodedPacket | opensnap/protocol/codec.py:97-128 | Byte by byte, the datagram of one packet: size word as flags plus length, packet number, command, and the session, sequence and acknowledge words, each most significant byte first; the payload; BA 47 66 11 or BA 47 66 10. |
| CodecBytes.EncodedDatagram | opensnap/protocol/codec.py:97-128 | Every list whose size words fit is encoded as its packets' bytes end to end, whatever sizes and sources they carry, and the footer. |
| CodecBytes.DecodedDatagram | opensnap/protocol/codec.py:34-94 | Every datagram is refused for its size or its last four bytes, or cut in one way into whole messages each read from its own bytes, or refused for what no message starts with. |
| LobbyBurst.BuildMultiLobbyUserQueryPayload | opensnap/plugins/automodellista/plugin.py:877-914 | The loop appends one 28-byte entry per further lobby to the first lobby's count. |
| LobbyBurst.BurstIsABundle | opensnap/plugins/automodellista/plugin.py:187-201 | The one packet's bytes are those of an ordinary bundle with one message per lobby. |
| LobbyBurst.BurstReadsAsOneMessagePerLobby | opensnap/plugins/automodellista/plugin.py:877-914 | Encoded as one packet, the burst decodes to one message per lobby, in lobby order, all but the first embedded. |
| LobbyBurst.MessageShowsItsLobby | opensnap/plugins/automodellista/plugin.py:884-914 | Message i of the burst shows lobby i: its id, the letters USER and its users, in answer to the request. |
| LobbyBurst.EmptyBurstIsRefused | opensnap/plugins/automodellista/plugin.py:877-882 | Without a lobby the size word promises more than there is, and decoding refuses the datagram. |
| AppStream.ChunkingDoesNotMatter | opensnap_app/capcom/protocol.py:84-108 | However a stream is cut into chunks, the frames popped and the leftover are those of the whole stream. |
| AppStream.SplitResumes | opensnap_app/capcom/protocol.py:84-96 | Splitting what arrived and then the rest with the leftover is splitting the whole. |
| AppStream.SplitLosesNothing | opensnap_app/capcom/protocol.py:99-108 | Frames and leftover joined are the stream, byte for byte. |
| AppStream.SplitFramesAreWhole | opensnap_app/capcom/protocol.py:99-108 | Each frame is eight bytes and as many more as its first two bytes say, high byte first. |
| AppStream.SplitLeavesNoFrame | opensnap_app/capcom/protocol.py:99-108 | What splitting leaves over holds no complete frame. |
| AppStream.NoFrameIsTooLarge | opensnap_app/capcom/protocol.py:89-91 | The size check never refuses: no length word announces a frame above the maximum. |
| AppStream.AppConnection.PopAppFrame | opensnap_app/capcom/protocol.py:84-96 | Exactly one complete frame is consumed and coalesced bytes stay. |
| AppStream.AppConnection.Receive | opensnap_app/capcom/connection.py:65-72 | The loop returns the stream's next frame whatever chunks it comes in, or fails only when the stream ends first. |
| AppStream.AppConnection.Poll | opensnap_app/capcom/connection.py:32-52 | Waiting changes nothing of the stream; it reads no chunk beyond the first with which a frame is complete, is ready exactly then, and gives up only when its patience or the stream runs out. |
| AppStream.SplitAppFrames | opensnap_app/capcom/protocol.py:99-108 | The loop gives the frames, or an error exactly when bytes are left over. |
| AppField.DecodeOfEncode | opensnap_app/capcom/protocol.py:111-137 | A field is its length and checksum, high byte first, and each byte masked by its letter and the running sequence; it decodes to what was encoded and reports its own size, whatever follows it. |
| AppField.EncodeOfDecode | opensnap_app/capcom/protocol.py:111-137 | An accepted field is exactly what encoding its content gives. |
| AppField.FieldsReadBack | opensnap_app/capcom/protocol.py:111-137 | Fields laid end to end are read back one by one, each starting where the one before says it ends. |
| AppField.OneDamagedByteIsRefused | opensnap_app/capcom/protocol.py:122-137 | Changing any one masked byte of an accepted field makes the checksum refuse it. |
| PostGameBarrier.PostGameBarrier.BuildPostGameTransitionMessages | opensnap/plugins/automodellista/plugin.py:691-774 | One packet changes its room's phase and reports as specified, no other room's, and tells all members or nobody. |
| PostGameBarrier.PostGameBarrier.ResetPostGameState | opensnap/plugins/automodellista/plugin.py:776-780 | A reset forgets one room and no other. |
| PostGameBarrier.PhaseMeansStarted | opensnap/plugins/automodellista/plugin.py:719-730 | A room has a phase exactly when a game start has come since its last reset. |
| PostGameBarrier.ReportsAreThoseThatStand | opensnap/plugins/automodellista/plugin.py:743-757 | What is held of a member is exactly which of its reports stand: sent since the last exit, start or reset, with the member there at every report since. |
| PostGameBarrier.ExitIsSentIff | opensnap/plugins/automodellista/plugin.py:719-774 | The room exit is sent if and only if a game has started since the last reset, the packet is a report that counts, and every session in the room has both reports standing. |
| PostGameBarrier.ExitConsumesReports | opensnap/plugins/automodellista/plugin.py:759-760 | After an exit no report stands. |
| PostGameBarrier.SecondExitIff | opensnap/plugins/automodellista/plugin.py:691-760 | After an exit and without another game start or reset, the next exit comes exactly with the packet that completes, after the first exit, a new end marker and a new result of every session then in the room. |
| PostGameBarrier.OneExitWithoutLateEndMarkers | opensnap/plugins/automodellista/plugin.py:732-737 | So a game none of whose end markers comes after its exit has no other exit. |
| PostGameBarrier.EndMarkersReopen | opensnap/plugins/automodellista/plugin.py:732-737 | While an end marker stands the room is not in the phase after an exit. |
| PostGameBarrier.SecondExitNeedsNoStart | opensnap/plugins/automodellista/plugin.py:732-737 | It happens: a history with one game start and two exits. |
| Sha1.ShiftBy5 | tools/dnas/install_packet.py:155-172 | The unmasked shifts of unbounded integers, or-ed and masked, are the 32-bit rotation. |
| Sha1.FunctionsAgree | tools/dnas/install_packet.py:155-172 | Choice and majority by or, with the complement of an unbounded integer, are the standard's functions. |
| Sha1.BlockRound | tools/dnas/install_packet.py:162-171 | One pass of the round loop is one round of FIPS 180-4 section 6.1.2. |
| Sha1.ExpandBlock | tools/dnas/install_packet.py:156-159 | The word list the loop appends to is the message schedule. |
| Sha1.Sha1Block | tools/dnas/install_packet.py:155-172 | The block function is the standard's compression. |
| Sha1.Sha1Dnas | tools/dnas/install_packet.py:175-193 | For every input the digest is the standard hash of the message padded as in section 5.1.1, with 64 more zero bytes exactly when the last partial block is 48 to 55 bytes long. |
| Sha1.PaddingIsTheStandards | tools/dnas/install_packet.py:175-193 | Without the extra bytes the padding is the standard's: the fewest zero bytes after which the length ends a block. |
| Sha1.PaddedBytes | tools/dnas/install_packet.py:175-193 | Byte by byte the padded message is the data, 80, zeros, and the length in bits as eight bytes, most significant first. |
| Sha1.ScheduleBytes | tools/dnas/install_packet.py:156-159 | The first sixteen words of the schedule are the block's bytes, most significant first. |
| Sha1.DigestBytes | tools/dnas/install_packet.py:175-193 | The digest is the five words of the hash, most significant bytes first. |
| Sha1.RoundConstantsAreRoots | tools/dnas/install_packet.py:162-168 | The round constants are the square roots of 2, 3, 5 and 10 in 2 to the 30th parts. |
| Sha1.StandardOutsideTheGap | tools/dnas/install_packet.py:175-193 | Outside that gap the digest is the standard's. |
| Sha1.OneBlockMoreInTheGap | tools/dnas/install_packet.py:175-193 | Inside it exactly one more block than the standard is compressed. |

## Left out

- Sockets, the blocking run loop, logging, configuration, webhooks, the Flask pages and DNS: input and output without an invariant of their own.
- Blowfish, AES-GCM, HKDF, MD5 session ids, passwords and RSA checks: calls into libraries; session ids are given values.
- Round-trip estimates, backoff, the adjust ring and float time: which packet is due, which peer is silent and which session is gone are inputs of the sender's methods.
- UdpSender.UdpSender.MoveSessionTransport: unframed sessions only; a framed session's packets that were sent before a move keep the old endpoint in the source, and its link is not moved here.
- UdpSender.UdpSender.RetransmitDue: the sessions that are gone and the clean-up messages of a timed-out session are functions of the sessions ended earlier in the pass, which any engine and plugins give; which packets are due and which peers silent are its inputs.
- WindowProtocol.ReceiveWindowSafety: one numbering epoch; stale ACKs of an earlier epoch and the wrap of 32-bit numbers are not modelled, the source's counters being unbounded.
- EngineReassembly.EngineReassemblesExactly: what is dispatched is stated within one epoch, for bundles of one top-level reliable packet each and for messages from the client's addresses that carry its session id; epochs that begin and end, and other shapes, are in EngineEpochs.EveryEpochIsExact, which speaks of the numbers accepted and held.
- Sessions.SessionRegistry.Adopt: a session is a value in the registry's table, so that two references to one session object are not told apart.
- OutbreakPlugin.OutbreakPlugin.HandleRequest: an outbox per recipient keeps the order each client sees; the order between recipients, numbering and acknowledgement words are not modelled, nor are the pure queries, echoes and searches.
- MonsterHunterPlugin.MonsterHunterPlugin.HandleJoinArea: whether an Area or its Land is full is an input, the presence lists behind it being left out.
- MonsterHunterQuest.RoundTrip: room callbacks, profiles and the list of members who left during a quest are not modelled.
- MonsterHunterPlugin.MonsterHunterPlugin.Detach: the state only; the leave callbacks it returns and the departures it records during a quest are left out.
- MonsterHunterPlugin.MonsterHunterPlugin.HandleCreateGameRoom: the state only; the answer and the departure callbacks are left out.
- MonsterHunterPlugin.MonsterHunterPlugin.HandleJoinRoom: the state only; the answer and the arrival callbacks are left out.
- MonsterHunterPlugin.MonsterHunterPlugin.HandleLeave: the state only; the answer and the leave callbacks are left out.
- MonsterHunterPlugin.MonsterHunterPlugin.HandleChangeAttribute: the state only; the answer and the arrival and quest-departure callbacks are left out.
- MonsterHunterPlugin.MonsterHunterPlugin.HandleLogout: the state only; the leave callbacks are left out.
- MonsterHunterPlugin.MonsterHunterPlugin.OnSessionTimeout: the state only; the leave callbacks are left out.
- MonsterHunterPlugin.MonsterHunterPlugin.HandleLoginToKics: the state only; the answer and the stale session's callbacks are left out.
- RecordBoard.SqlRecordStore.Submit: one atomic upsert per submission; timestamps are numbers, which the fixed-width text of the source orders alike.
- AppStream.AppConnection.Poll: the deadline is a number of reads.
- Sha1.Sha1Dnas: inputs of up to 2^61 - 1 bytes, beyond which the length does not fit its field.
- Outbreak File#1 and File#2 share one model, told apart by its configuration; File#2's listing queries, its online-player store and its scenario announcements are left out.
- Auto Modellista's rooms and the Beta1 legacy datagrams, Bootstrap login, title detection and the client patches.
