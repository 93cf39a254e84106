/**
  What one turn of the receive loop of `SnapUdpServer` (opensnap/udp_server.py)
  does to the channels of all sessions: ACKs retire packets, a move re-addresses
  them, restarted sessions forget theirs, answers go out behind what waits, and
  the resend pass repeats what is due and drops who is gone.

  Which pending packet is due, which peer is silent and which session is gone
  are inputs; the latter two may depend on the sessions ended so far in the pass.
 */
module Transport {
  import opened Snap
  import opened Channel

  datatype SessionKey = SessionKey(endpoint: Endpoint, sessionId: int)

  datatype PendingKey = PendingKey(session: SessionKey, sequence: int)

  type Net = SessionKey -> Channel

  function KeyOf(m: Message): SessionKey {
    SessionKey(m.endpoint, m.sessionId)
  }

  /** The reliable messages of one session, in order. */
  function For(ms: seq<Message>, k: SessionKey): seq<Message> {
    if ms == [] then []
    else
      var m := ms[|ms| - 1];
      For(ms[..|ms| - 1], k) + if m.Reliable() && KeyOf(m) == k then [m] else []
  }

  lemma {:induction false} ForAppends(a: seq<Message>, b: seq<Message>, k: SessionKey)
    ensures For(a + b, k) == For(a, k) + For(b, k)
    decreases |b|
  {
    if b == [] {
      assert a + b == a;
    } else {
      ForAppends(a, b[..|b| - 1], k);
      assert (a + b)[..|a + b| - 1] == a + b[..|b| - 1];
    }
  }

  lemma {:induction false} ForIsFiled(ms: seq<Message>, k: SessionKey)
    ensures forall m :: m in For(ms, k) ==> KeyOf(m) == k && m in ms && m.Reliable()
  {
    if ms != [] { ForIsFiled(ms[..|ms| - 1], k); }
  }

  // The resend pass.

  datatype Outside = Outside(
    gone: seq<SessionKey> -> set<SessionKey>,
    inactive: set<PendingKey>,
    due: set<PendingKey>,
    cleanup: seq<SessionKey> -> seq<Message>)

  /** The channels, and what the pass has resent, dropped, sent for ended sessions, and ended. */
  datatype Resending = Resending(
    net: Net,
    resent: seq<Message>,
    dropped: set<SessionKey>,
    cleaned: seq<Message>,
    ended: seq<SessionKey>)

  predicate InFlight(net: Net, key: PendingKey) {
    key.sequence in net(key.session).pending
  }

  /** A packet of a session whose client owes this ACK and has been silent for the whole timeout. */
  predicate TimesOut(net: Net, key: PendingKey, inactive: set<PendingKey>) {
    InFlight(net, key) && key in inactive && net(key.session).pending[key.sequence].command != CMD_ACK
  }

  function Without(net: Net, s: SessionKey): Net {
    k => if k == s then IDLE else net(k)
  }

  function Sent(net: Net, ms: seq<Message>): Net {
    k => SendAll(net(k), For(ms, k))
  }

  /** The session's tables are dropped, then what its end produced is sent. */
  function Dropped(r: Resending, s: SessionKey, cleanup: seq<Message>): Resending {
    var net := Without(r.net, s);
    r.(net := if cleanup == [] then net else Sent(net, cleanup),
       dropped := r.dropped + {s},
       cleaned := r.cleaned + cleanup)
  }

  function Visited(r: Resending, key: PendingKey, o: Outside): Resending {
    if !InFlight(r.net, key) then r
    else if key.session in o.gone(r.ended) then Dropped(r, key.session, [])
    else if TimesOut(r.net, key, o.inactive) then
      var ended := r.ended + [key.session];
      Dropped(r.(ended := ended), key.session, o.cleanup(ended))
    else if key in o.due then r.(resent := r.resent + [r.net(key.session).pending[key.sequence]])
    else r
  }

  /** `_retransmit_due` */
  function Visits(net: Net, order: seq<PendingKey>, o: Outside): Resending {
    if order == [] then Resending(net, [], {}, [], [])
    else Visited(Visits(net, order[..|order| - 1], o), order[|order| - 1], o)
  }

  // What a session that is kept, and one that is dropped, has after the pass.

  lemma CleaningTakes(r: Resending, s: SessionKey, cleanup: seq<Message>, k: SessionKey)
    ensures Took(if k == s then IDLE else r.net(k), For(cleanup, k), Dropped(r, s, cleanup).net(k))
  {
    var ch := Without(r.net, s)(k);
    if cleanup == [] { TookNothing(ch); } else { SendAllTakes(ch, For(cleanup, k)); }
  }

  lemma {:induction false} KeptSessionsTook(net: Net, order: seq<PendingKey>, o: Outside, k: SessionKey)
    ensures var r := Visits(net, order, o);
            k !in r.dropped ==> Took(net(k), For(r.cleaned, k), r.net(k))
  {
    if order == [] {
      TookNothing(net(k));
    } else {
      var n := |order| - 1;
      var r, r' := Visits(net, order[..n], o), Visits(net, order, o);
      assert r' == Visited(r, order[n], o);
      hide Took, Visited, Visits, Drops, For;
      KeptSessionsTook(net, order[..n], o, k);
      VisitTakes(r, order[n], o, k);
      if k !in r'.dropped {
        var more := r'.cleaned[|r.cleaned|..];
        TookMore(net(k), For(r.cleaned, k), r.net(k), For(more, k), r'.net(k));
        ForAppends(r.cleaned, more, k);
      }
    }
  }

  /** One visit drops the session of its key or nobody, and everybody else takes what is sent for that. */
  lemma VisitTakes(r: Resending, key: PendingKey, o: Outside, k: SessionKey)
    ensures var r' := Visited(r, key, o);
            && r'.dropped == (if Drops(r, key, o) then r.dropped + {key.session} else r.dropped)
            && r.cleaned <= r'.cleaned
            && r'.cleaned == r.cleaned + r'.cleaned[|r.cleaned|..]
            && Took(if Drops(r, key, o) && k == key.session then IDLE else r.net(k),
                    For(r'.cleaned[|r.cleaned|..], k), r'.net(k))
  {
    if Drops(r, key, o) {
      if key.session in o.gone(r.ended) {
        CleaningTakes(r, key.session, [], k);
        assert (r.cleaned + [])[|r.cleaned|..] == [];
      } else {
        var ended := r.ended + [key.session];
        CleaningTakes(r.(ended := ended), key.session, o.cleanup(ended), k);
        assert (r.cleaned + o.cleanup(ended))[|r.cleaned|..] == o.cleanup(ended);
      }
    } else {
      assert r.cleaned[|r.cleaned|..] == [];
      TookNothing(r.net(k));
    }
  }

  predicate Drops(r: Resending, key: PendingKey, o: Outside) {
    InFlight(r.net, key) && (key.session in o.gone(r.ended) || TimesOut(r.net, key, o.inactive))
  }

  /** What is left of a dropped session is what was sent to it since, if anything. */
  ghost predicate StartedAfresh(cleaned: seq<Message>, k: SessionKey, ch: Channel) {
    exists i :: 0 <= i <= |cleaned| && Took(IDLE, For(cleaned[i..], k), ch)
  }

  lemma FreshStart(cleaned: seq<Message>, k: SessionKey, ch: Channel, i: nat)
    requires i <= |cleaned| && Took(IDLE, For(cleaned[i..], k), ch)
    ensures StartedAfresh(cleaned, k, ch)
  {
  }

  lemma FreshStaysFresh(cleaned: seq<Message>, more: seq<Message>, k: SessionKey, ch: Channel, ch': Channel)
    requires StartedAfresh(cleaned, k, ch) && Took(ch, For(more, k), ch')
    ensures StartedAfresh(cleaned + more, k, ch')
  {
    hide Took, For;
    var i :| 0 <= i <= |cleaned| && Took(IDLE, For(cleaned[i..], k), ch);
    TookMore(IDLE, For(cleaned[i..], k), ch, For(more, k), ch');
    ForAppends(cleaned[i..], more, k);
    assert (cleaned + more)[i..] == cleaned[i..] + more;
    FreshStart(cleaned + more, k, ch', i);
  }

  lemma {:induction false} DroppedSessionsStartAfresh(net: Net, order: seq<PendingKey>, o: Outside, k: SessionKey)
    ensures var r := Visits(net, order, o);
            k in r.dropped ==> StartedAfresh(r.cleaned, k, r.net(k))
  {
    if order != [] {
      var n := |order| - 1;
      var r, r' := Visits(net, order[..n], o), Visits(net, order, o);
      assert r' == Visited(r, order[n], o);
      hide Took, Visited, Visits, Drops, For, StartedAfresh;
      DroppedSessionsStartAfresh(net, order[..n], o, k);
      VisitTakes(r, order[n], o, k);
      var more := r'.cleaned[|r.cleaned|..];
      if Drops(r, order[n], o) && k == order[n].session {
        FreshStart(r'.cleaned, k, r'.net(k), |r.cleaned|);
      } else if k in r.dropped {
        FreshStaysFresh(r.cleaned, more, k, r.net(k), r'.net(k));
      }
    }
  }

  lemma {:induction false} NothingElseIsInFlight(net: Net, order: seq<PendingKey>, o: Outside, k: SessionKey)
    ensures var r := Visits(net, order, o); Supplied(net(k), For(r.cleaned, k), r.net(k))
  {
    if order == [] {
      TookNothing(net(k));
      TookIsSupplied(net(k), [], net(k));
    } else {
      var n := |order| - 1;
      var r, r' := Visits(net, order[..n], o), Visits(net, order, o);
      assert r' == Visited(r, order[n], o);
      hide Took, Supplied, Visited, Visits, Drops, For;
      NothingElseIsInFlight(net, order[..n], o, k);
      VisitTakes(r, order[n], o, k);
      var more := r'.cleaned[|r.cleaned|..];
      ForAppends(r.cleaned, more, k);
      if Drops(r, order[n], o) && k == order[n].session {
        IdleIsSupplied(net(k), For(r.cleaned, k));
        TookIsSupplied(IDLE, For(more, k), r'.net(k));
        SuppliedMore(net(k), For(r.cleaned, k), IDLE, For(more, k), r'.net(k));
      } else {
        TookIsSupplied(r.net(k), For(more, k), r'.net(k));
        SuppliedMore(net(k), For(r.cleaned, k), r.net(k), For(more, k), r'.net(k));
      }
    }
  }

  // What is resent.

  /** Every packet is in the channel of its own address and session, under its own number. */
  ghost predicate Filed(ch: Channel, k: SessionKey) {
    && (forall n :: n in ch.pending ==> KeyOf(ch.pending[n]) == k && ch.pending[n].sequence == n)
    && (forall m :: m in ch.deferred ==> KeyOf(m) == k)
  }

  lemma {:induction false} FlushKeepsFiled(ch: Channel, k: SessionKey)
    requires Filed(ch, k)
    ensures Filed(Flush(ch), k)
    decreases |ch.deferred|
  {
    if ch.deferred != [] && HasRoom(ch.pending, ch.deferred[0].sequence) {
      assert ch.deferred[0] in ch.deferred;
      FlushKeepsFiled(Send(ch.(deferred := ch.deferred[1..]), ch.deferred[0]), k);
    }
  }

  lemma {:induction false} SubmitAllKeepsFiled(ch: Channel, ms: seq<Message>, k: SessionKey)
    requires Filed(ch, k) && forall m :: m in ms ==> KeyOf(m) == k
    ensures Filed(SubmitAll(ch, ms), k)
  {
    if ms != [] {
      SubmitAllKeepsFiled(ch, ms[..|ms| - 1], k);
      assert ms[|ms| - 1] in ms;
    }
  }

  lemma SentKeepsFiled(net: Net, ms: seq<Message>, k: SessionKey)
    requires Filed(net(k), k)
    ensures Filed(Sent(net, ms)(k), k)
  {
    ForIsFiled(ms, k);
    FlushKeepsFiled(net(k), k);
    SubmitAllKeepsFiled(Flush(net(k)), For(ms, k), k);
    FlushKeepsFiled(SubmitAll(Flush(net(k)), For(ms, k)), k);
  }

  lemma {:induction false} VisitsKeepFiled(net: Net, order: seq<PendingKey>, o: Outside, k: SessionKey)
    requires Filed(net(k), k)
    ensures Filed(Visits(net, order, o).net(k), k)
  {
    if order != [] {
      var n := |order| - 1;
      VisitsKeepFiled(net, order[..n], o, k);
      var r, s := Visits(net, order[..n], o), order[n].session;
      assert Filed(Without(r.net, s)(k), k);
      SentKeepsFiled(Without(r.net, s), o.cleanup(r.ended + [s]), k);
    }
  }

  /** The number was in flight before, or is one of a message that waited or was sent in the pass. */
  predicate Known(was: Channel, ms: seq<Message>, n: int) {
    n in was.pending || n in NumbersOf(was.deferred + ms)
  }

  lemma KnownStays(was: Channel, ms: seq<Message>, more: seq<Message>, n: int)
    requires Known(was, ms, n)
    ensures Known(was, ms + more, n)
  {
    assert was.deferred + (ms + more) == was.deferred + ms + more;
    NumbersAppend(was.deferred + ms, more);
  }

  /** Only what was in flight, waiting or sent in the pass is resent. */
  lemma {:induction false} OnlyKnownIsResent(net: Net, order: seq<PendingKey>, o: Outside, m: Message)
    requires forall k :: Filed(net(k), k)
    ensures var r := Visits(net, order, o);
            m in r.resent ==> Known(net(KeyOf(m)), For(r.cleaned, KeyOf(m)), m.sequence)
  {
    if order != [] {
      var n, k := |order| - 1, KeyOf(m);
      var r, r' := Visits(net, order[..n], o), Visits(net, order, o);
      OnlyKnownIsResent(net, order[..n], o, m);
      VisitTakes(r, order[n], o, k);
      ForAppends(r.cleaned, r'.cleaned[|r.cleaned|..], k);
      VisitResends(r, order[n], o);
      if m in r.resent {
        KnownStays(net(k), For(r.cleaned, k), For(r'.cleaned[|r.cleaned|..], k), m.sequence);
      } else if m in r'.resent {
        VisitsKeepFiled(net, order[..n], o, order[n].session);
        NothingElseIsInFlight(net, order[..n], o, k);
      }
    }
  }

  lemma VisitResends(r: Resending, key: PendingKey, o: Outside)
    ensures Visited(r, key, o).resent
         == r.resent + if InFlight(r.net, key) && !Drops(r, key, o) && key in o.due
                       then [r.net(key.session).pending[key.sequence]] else []
    ensures Visited(r, key, o).resent != r.resent ==> Visited(r, key, o).cleaned == r.cleaned
  {
    assert r.resent + [] == r.resent;
  }

  // Who is dropped, and that the due packets of the others are resent.

  ghost predicate HasPacket(ms: seq<Message>, key: PendingKey) {
    exists m :: m in ms && KeyOf(m) == key.session && m.sequence == key.sequence
  }

  predicate NewerMessage(net: Net, cleaned: seq<Message>, key: PendingKey) {
    key.sequence in NumbersOf(net(key.session).deferred + For(cleaned, key.session))
  }

  /**
    A packet in flight that is visited: its session is dropped if it is gone, or
    if the packet times out and no newer message took its number; and if its
    session is kept and it is due, it is resent.
   */
  ghost predicate Treated(net: Net, key: PendingKey, o: Outside, r: Resending) {
    && ((forall ended :: key.session in o.gone(ended)) ==> key.session in r.dropped)
    && (TimesOut(net, key, o.inactive) && !NewerMessage(net, r.cleaned, key) ==> key.session in r.dropped)
    && (key in o.due && key.session !in r.dropped ==> HasPacket(r.resent, key))
  }

  lemma TreatedStays(net: Net, key: PendingKey, o: Outside, r: Resending, last: PendingKey)
    requires Treated(net, key, o, r)
    ensures Treated(net, key, o, Visited(r, last, o))
  {
    var r' := Visited(r, last, o);
    VisitTakes(r, last, o, key.session);
    VisitResends(r, last, o);
    var more := r'.cleaned[|r.cleaned|..];
    ForAppends(r.cleaned, more, key.session);
    var waiting := net(key.session).deferred;
    assert waiting + For(r'.cleaned, key.session) == waiting + For(r.cleaned, key.session) + For(more, key.session);
    NumbersAppend(waiting + For(r.cleaned, key.session), For(more, key.session));
    hide Visited, Drops, For, Took;
  }

  lemma VisitTreats(net: Net, key: PendingKey, o: Outside, r: Resending)
    requires InFlight(net, key) && Filed(r.net(key.session), key.session)
    requires key.session !in r.dropped ==> Took(net(key.session), For(r.cleaned, key.session), r.net(key.session))
    ensures Treated(net, key, o, Visited(r, key, o))
  {
    var r' := Visited(r, key, o);
    VisitTakes(r, key, o, key.session);
    VisitResends(r, key, o);
    if key.session !in r.dropped {
      TookIsSupplied(net(key.session), For(r.cleaned, key.session), r.net(key.session));
      SentWasSupplied(net(key.session), For(r.cleaned, key.session), r.net(key.session));
      if key in o.due && key.session !in r'.dropped {
        var m := r.net(key.session).pending[key.sequence];
        assert r'.resent == r.resent + [m] && r'.resent[|r.resent|] == m;
        assert HasPacket(r'.resent, key);
      }
    }
  }

  lemma SentWasSupplied(was: Channel, ms: seq<Message>, ch: Channel)
    requires Took(was, ms, ch)
    ensures forall n :: n in was.pending && n !in NumbersOf(was.deferred + ms) ==>
              n in ch.pending && (ch.pending[n] == was.pending[n] || ch.pending[n].sequence != n)
  {
    SentWasWaiting(was, ms, ch);
  }

  lemma {:induction false} EveryVisitTreats(net: Net, order: seq<PendingKey>, o: Outside, key: PendingKey)
    requires key in order && InFlight(net, key) && Filed(net(key.session), key.session)
    ensures Treated(net, key, o, Visits(net, order, o))
  {
    var n := |order| - 1;
    var r := Visits(net, order[..n], o);
    if order[n] == key {
      KeptSessionsTook(net, order[..n], o, key.session);
      VisitsKeepFiled(net, order[..n], o, key.session);
      VisitTreats(net, key, o, r);
    } else {
      assert key in order[..n];
      EveryVisitTreats(net, order[..n], o, key);
      TreatedStays(net, key, o, r, order[n]);
    }
  }

  /** Only silent sessions and those that are gone are dropped. */
  lemma {:induction false} DroppedForAReason(net: Net, order: seq<PendingKey>, o: Outside, k: SessionKey)
    ensures k in Visits(net, order, o).dropped ==>
              (exists key :: key in o.inactive && key.session == k) || (exists ended :: k in o.gone(ended))
  {
    if order != [] {
      DroppedForAReason(net, order[..|order| - 1], o, k);
      VisitTakes(Visits(net, order[..|order| - 1], o), order[|order| - 1], o, k);
    }
  }

  // The turn.

  /** The numbers a datagram's ACKs name for one session: on top-level messages with the response flag. */
  function AckedBy(received: seq<Message>, endpoint: Endpoint, resolve: int -> int, k: SessionKey): set<int> {
    if k.endpoint != endpoint then {}
    else set m | m in received && !m.embedded && m.Response() && resolve(m.sessionId) == k.sessionId :: m.acknowledge
  }

  type Move = Option<(Endpoint, Endpoint, int)>

  predicate Departs(move: Move, k: SessionKey) {
    move.Some? && k == SessionKey(move.value.0, move.value.2)
  }

  predicate Arrives(move: Move, k: SessionKey) {
    move.Some? && k == SessionKey(move.value.1, move.value.2)
  }

  function Retired(net: Net, acked: SessionKey -> set<int>): Net {
    k => net(k).(pending := net(k).pending - acked(k))
  }

  function Readdressed(net: Net, move: Move): Net {
    k =>
      if Arrives(move, k) then Moved(net(SessionKey(move.value.0, move.value.2)), net(k), move.value.1)
      else if Departs(move, k) then IDLE
      else net(k)
  }

  function Forgotten(net: Net, restarts: seq<int>): Net {
    (k: SessionKey) => if k.sessionId in restarts then IDLE else net(k)
  }

  /** The channels before anything is sent. */
  function Settled(net: Net, acked: SessionKey -> set<int>, move: Move, restarts: seq<int>): Net {
    Forgotten(Readdressed(Retired(net, acked), move), restarts)
  }

  function Turn(
    net: Net, acked: SessionKey -> set<int>, move: Move, restarts: seq<int>, answers: seq<Message>, tick: seq<Message>,
    order: seq<PendingKey>, o: Outside): Resending
  {
    Visits(Sent(Sent(Settled(net, acked, move, restarts), answers), tick), order, o)
  }

  /** Everything that is sent to one session in a turn. */
  function Offered(answers: seq<Message>, tick: seq<Message>, cleaned: seq<Message>, k: SessionKey): seq<Message> {
    For(answers, k) + For(tick, k) + For(cleaned, k)
  }

  lemma BeforeResending(settled: Net, answers: seq<Message>, tick: seq<Message>, k: SessionKey)
    ensures Took(settled(k), For(answers, k) + For(tick, k), Sent(Sent(settled, answers), tick)(k))
  {
    SendAllTakes(settled(k), For(answers, k));
    SendAllTakes(Sent(settled, answers)(k), For(tick, k));
    TookMore(settled(k), For(answers, k), Sent(settled, answers)(k), For(tick, k),
             Sent(Sent(settled, answers), tick)(k));
  }

  /**
    A session that is not dropped in the turn: behind the work it had once the
    ACKs, the move and the restarts were seen to comes what was sent to it, in
    order and none lost; and what it has in flight is what was left in flight
    and what went out for the first time.
   */
  lemma TurnKeeps(
    net: Net, acked: SessionKey -> set<int>, move: Move, restarts: seq<int>, answers: seq<Message>, tick: seq<Message>,
    order: seq<PendingKey>, o: Outside, k: SessionKey)
    requires k !in Turn(net, acked, move, restarts, answers, tick, order, o).dropped
    ensures var r := Turn(net, acked, move, restarts, answers, tick, order, o);
            Took(Settled(net, acked, move, restarts)(k), Offered(answers, tick, r.cleaned, k), r.net(k))
  {
    var settled := Settled(net, acked, move, restarts);
    var net1 := Sent(Sent(settled, answers), tick);
    BeforeResending(settled, answers, tick, k);
    KeptSessionsTook(net1, order, o, k);
    TookMore(settled(k), For(answers, k) + For(tick, k), net1(k), For(Visits(net1, order, o).cleaned, k),
             Visits(net1, order, o).net(k));
  }

  lemma TurnSupplies(
    net: Net, acked: SessionKey -> set<int>, move: Move, restarts: seq<int>, answers: seq<Message>, tick: seq<Message>,
    order: seq<PendingKey>, o: Outside, k: SessionKey)
    ensures var r := Turn(net, acked, move, restarts, answers, tick, order, o);
            Supplied(Settled(net, acked, move, restarts)(k), Offered(answers, tick, r.cleaned, k), r.net(k))
  {
    var settled := Settled(net, acked, move, restarts);
    var net1 := Sent(Sent(settled, answers), tick);
    BeforeResending(settled, answers, tick, k);
    TookIsSupplied(settled(k), For(answers, k) + For(tick, k), net1(k));
    NothingElseIsInFlight(net1, order, o, k);
    SuppliedMore(settled(k), For(answers, k) + For(tick, k), net1(k), For(Visits(net1, order, o).cleaned, k),
                 Visits(net1, order, o).net(k));
  }

  predicate WaitsOrComes(was: Channel, offered: seq<Message>, n: int) {
    n in NumbersOf(was.deferred + offered)
  }

  /**
    An ACK retires: an acknowledged number of a session that is not moved is
    neither in flight after the turn nor resent in it, unless a message of that
    number still waited or was sent to the session in the turn.
   */
  lemma AcknowledgedIsRetired(
    net: Net, acked: SessionKey -> set<int>, move: Move, restarts: seq<int>, answers: seq<Message>, tick: seq<Message>,
    order: seq<PendingKey>, o: Outside, k: SessionKey, n: int)
    requires (forall s :: Filed(net(s), s)) && n in acked(k) && !Departs(move, k) && !Arrives(move, k)
    ensures var r := Turn(net, acked, move, restarts, answers, tick, order, o);
            !WaitsOrComes(net(k), Offered(answers, tick, r.cleaned, k), n) ==>
              n !in r.net(k).pending && forall m :: m in r.resent && KeyOf(m) == k ==> m.sequence != n
  {
    var settled := Settled(net, acked, move, restarts);
    var r := Turn(net, acked, move, restarts, answers, tick, order, o);
    var offered := Offered(answers, tick, r.cleaned, k);
    TurnSupplies(net, acked, move, restarts, answers, tick, order, o, k);
    assert n !in settled(k).pending;
    assert settled(k).deferred == [] || settled(k).deferred == net(k).deferred;
    assert NumbersOf(settled(k).deferred + offered) <= NumbersOf(net(k).deferred + offered);
    forall m | m in r.resent && KeyOf(m) == k && m.sequence == n ensures WaitsOrComes(net(k), offered, n) {
      ResentWasSupplied(net, acked, move, restarts, answers, tick, order, o, m);
    }
  }

  lemma SettledIsFiled(net: Net, acked: SessionKey -> set<int>, move: Move, restarts: seq<int>, k: SessionKey)
    requires forall s :: Filed(net(s), s)
    ensures Filed(Settled(net, acked, move, restarts)(k), k)
  {
    var left := Retired(net, acked);
    forall s ensures Filed(left(s), s) { assert Filed(net(s), s); }
    if Arrives(move, k) { MovedIsFiled(left(SessionKey(move.value.0, move.value.2)), left(k), move.value.0, k); }
  }

  lemma MovedIsFiled(source: Channel, onto: Channel, oldEnd: Endpoint, k: SessionKey)
    requires Filed(source, SessionKey(oldEnd, k.sessionId)) && Filed(onto, k)
    ensures Filed(Moved(source, onto, k.endpoint), k)
  {
    var moved := ReaddressAll(source.deferred, k.endpoint);
    forall m | m in moved ensures KeyOf(m) == k {
      var i :| 0 <= i < |moved| && moved[i] == m;
      assert source.deferred[i] in source.deferred;
    }
  }

  /** Only what was left in flight, waited, or was sent in the turn is resent. */
  lemma ResentWasSupplied(
    net: Net, acked: SessionKey -> set<int>, move: Move, restarts: seq<int>, answers: seq<Message>, tick: seq<Message>,
    order: seq<PendingKey>, o: Outside, m: Message)
    requires forall s :: Filed(net(s), s)
    requires m in Turn(net, acked, move, restarts, answers, tick, order, o).resent
    ensures var r := Turn(net, acked, move, restarts, answers, tick, order, o);
            Known(Settled(net, acked, move, restarts)(KeyOf(m)), Offered(answers, tick, r.cleaned, KeyOf(m)),
                  m.sequence)
  {
    var settled, k := Settled(net, acked, move, restarts), KeyOf(m);
    var net1 := Sent(Sent(settled, answers), tick);
    forall s ensures Filed(net1(s), s) {
      SettledIsFiled(net, acked, move, restarts, s);
      SentKeepsFiled(settled, answers, s);
      SentKeepsFiled(Sent(settled, answers), tick, s);
    }
    OnlyKnownIsResent(net1, order, o, m);
    BeforeResending(settled, answers, tick, k);
    var cleaned := Visits(net1, order, o).cleaned;
    KnownThroughSending(settled(k), For(answers, k) + For(tick, k), net1(k), For(cleaned, k), m.sequence);
  }

  lemma KnownThroughSending(was: Channel, ms: seq<Message>, ch: Channel, more: seq<Message>, n: int)
    requires Took(was, ms, ch) && Known(ch, more, n)
    ensures Known(was, ms + more, n)
  {
    SentWasWaiting(was, ms, ch);
    assert was.deferred + (ms + more) == SentSince(was, ch) + ch.deferred + more;
    assert SentSince(was, ch) + ch.deferred + more == SentSince(was, ch) + (ch.deferred + more);
    NumbersAppend(SentSince(was, ch), ch.deferred + more);
  }

  /** What was in flight at the old address, and is not acknowledged, is in flight at the new one after a move. */
  lemma MovedPacketsArrive(
    net: Net, acked: SessionKey -> set<int>, move: Move, restarts: seq<int>, answers: seq<Message>, tick: seq<Message>,
    order: seq<PendingKey>, o: Outside, source: SessionKey, onto: SessionKey, n: int)
    requires Departs(move, source) && Arrives(move, onto) && onto.sessionId !in restarts
    requires onto !in Turn(net, acked, move, restarts, answers, tick, order, o).dropped
    requires n in net(source).pending && n !in acked(source)
    ensures n in Turn(net, acked, move, restarts, answers, tick, order, o).net(onto).pending
  {
    TurnKeeps(net, acked, move, restarts, answers, tick, order, o, onto);
    assert n in ReaddressEach(Retired(net, acked)(source).pending, move.value.1);
  }

  /** A restarted session has exactly what the turn sent to it, numbered anew. */
  lemma RestartedHasOnlyTheNew(
    net: Net, acked: SessionKey -> set<int>, move: Move, restarts: seq<int>, answers: seq<Message>, tick: seq<Message>,
    order: seq<PendingKey>, o: Outside, k: SessionKey)
    requires k.sessionId in restarts && k !in Turn(net, acked, move, restarts, answers, tick, order, o).dropped
    ensures var r := Turn(net, acked, move, restarts, answers, tick, order, o);
            && Accepted(r.net(k)) == Offered(answers, tick, r.cleaned, k)
            && r.net(k).pending.Keys == NumbersOf(r.net(k).sent)
  {
    TurnKeeps(net, acked, move, restarts, answers, tick, order, o, k);
    assert Settled(net, acked, move, restarts)(k) == IDLE;
    hide Turn, Settled, Took, Offered, Accepted;
    var r := Turn(net, acked, move, restarts, answers, tick, order, o);
    TookFromIdle(Offered(answers, tick, r.cleaned, k), r.net(k));
  }

  lemma TookFromIdle(ms: seq<Message>, ch: Channel)
    requires Took(IDLE, ms, ch)
    ensures Accepted(ch) == ms && ch.pending.Keys == NumbersOf(ch.sent)
  {
    assert SentSince(IDLE, ch) == ch.sent;
    assert Accepted(IDLE) + ms == ms;
  }

  /** Nets that agree on every session are passed over alike. */
  lemma {:induction false} SameNetSameVisits(a: Net, b: Net, order: seq<PendingKey>, o: Outside)
    requires forall k :: a(k) == b(k)
    ensures var r, s := Visits(a, order, o), Visits(b, order, o);
            && r == s.(net := r.net)
            && forall k :: r.net(k) == s.net(k)
  {
    if order != [] { SameNetSameVisits(a, b, order[..|order| - 1], o); }
  }

  /** What the theorems above say of all sessions at once. */
  lemma TurnProperties(
    net: Net, acked: SessionKey -> set<int>, move: Move, restarts: seq<int>, answers: seq<Message>, tick: seq<Message>,
    order: seq<PendingKey>, o: Outside)
    requires forall s :: Filed(net(s), s)
    ensures var r := Turn(net, acked, move, restarts, answers, tick, order, o);
            && (forall k, n :: n in acked(k) && !Departs(move, k) && !Arrives(move, k) ==>
                  || WaitsOrComes(net(k), Offered(answers, tick, r.cleaned, k), n)
                  || (n !in r.net(k).pending && forall m :: m in r.resent && KeyOf(m) == k ==> m.sequence != n))
            && (forall k :: !Departs(move, k) && !Arrives(move, k) && k.sessionId !in restarts && k !in r.dropped ==>
                  Accepted(r.net(k)) == Accepted(net(k)) + Offered(answers, tick, r.cleaned, k))
  {
    var r := Turn(net, acked, move, restarts, answers, tick, order, o);
    forall k, n | n in acked(k) && !Departs(move, k) && !Arrives(move, k)
      ensures || WaitsOrComes(net(k), Offered(answers, tick, r.cleaned, k), n)
              || (n !in r.net(k).pending && forall m :: m in r.resent && KeyOf(m) == k ==> m.sequence != n)
    {
      AcknowledgedIsRetired(net, acked, move, restarts, answers, tick, order, o, k, n);
    }
    forall k: SessionKey | !Departs(move, k) && !Arrives(move, k) && k.sessionId !in restarts && k !in r.dropped
      ensures Accepted(r.net(k)) == Accepted(net(k)) + Offered(answers, tick, r.cleaned, k)
    {
      TurnKeeps(net, acked, move, restarts, answers, tick, order, o, k);
    }
  }

  /** One visit, said of channels that agree with those visited. */
  lemma VisitedIs(
    r: Resending, key: PendingKey, o: Outside, before: Net, after: Net, one: seq<Message>, drops: bool,
    sent: seq<Message>)
    requires forall k :: before(k) == r.net(k)
    requires drops <==> InFlight(before, key) && (key.session in o.gone(r.ended) || TimesOut(before, key, o.inactive))
    requires sent == if drops && key.session !in o.gone(r.ended) then o.cleanup(r.ended + [key.session]) else []
    requires one == if InFlight(before, key) && !drops && key in o.due
                    then [before(key.session).pending[key.sequence]] else []
    requires forall k :: after(k) ==
               var ch := if drops && k == key.session then IDLE else before(k);
               if sent == [] then ch else SendAll(ch, For(sent, k))
    ensures var r' := Visited(r, key, o);
            && r'.resent == r.resent + one
            && r'.dropped == (if drops then r.dropped + {key.session} else r.dropped)
            && r'.cleaned == r.cleaned + sent
            && r'.ended == (if drops && key.session !in o.gone(r.ended) then r.ended + [key.session] else r.ended)
            && forall k :: after(k) == r'.net(k)
  {
    hide SendAll, For;
    assert r.resent + [] == r.resent && r.cleaned + [] == r.cleaned;
  }

  lemma SettledIs(
    net: Net, acked: SessionKey -> set<int>, move: Move, restarts: seq<int>, retired: Net, moved: Net, after: Net)
    requires forall k :: retired(k) == Retired(net, acked)(k)
    requires forall k :: moved(k) == Readdressed(retired, move)(k)
    requires forall k: SessionKey :: after(k) == if k.sessionId in restarts then IDLE else moved(k)
    ensures forall k :: after(k) == Settled(net, acked, move, restarts)(k)
  {
    hide Moved;
  }

  /** What a pass that drops nobody sends: the due packets, in key order. */
  function Resends(net: Net, order: seq<PendingKey>, due: set<PendingKey>): seq<Message> {
    if order == [] then []
    else
      var key := order[|order| - 1];
      Resends(net, order[..|order| - 1], due)
      + if InFlight(net, key) && key in due then [net(key.session).pending[key.sequence]] else []
  }

  lemma {:induction false} QuietPass(net: Net, order: seq<PendingKey>, o: Outside)
    requires o.gone([]) == {} && o.inactive == {}
    ensures Visits(net, order, o) == Resending(net, Resends(net, order, o.due), {}, [], [])
  {
    if order != [] {
      QuietPass(net, order[..|order| - 1], o);
      assert Resends(net, order[..|order| - 1], o.due) + [] == Resends(net, order[..|order| - 1], o.due);
    }
  }
}
