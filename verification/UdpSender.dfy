/**
  The transport tables of `SnapUdpServer` (opensnap/udp_server.py), updated in
  place. Each method says what it does to every channel, a channel being what
  the flat tables hold for one endpoint and session.

  Sockets, footers, RTT estimates and logging are left out: which pending packet
  is due, which peer is inactive and which session is gone are inputs.
 */
module UdpSender {
  import opened Snap
  import opened Channel
  import opened Transport

  /** A packet in flight, with the address it is resent to, and its resend count. */
  datatype Pending = Pending(message: Message, attempts: nat)

  /** The packets in flight for one session, by number. */
  function Inflight(pending: map<PendingKey, Pending>, k: SessionKey): map<int, Message> {
    var numbers := set key | key in pending && key.session == k :: key.sequence;
    map n | n in numbers && PendingKey(k, n) in pending :: pending[PendingKey(k, n)].message
  }

  lemma InflightIs(pending: map<PendingKey, Pending>, k: SessionKey, n: int)
    ensures n in Inflight(pending, k) <==> PendingKey(k, n) in pending
    ensures n in Inflight(pending, k) ==> Inflight(pending, k)[n] == pending[PendingKey(k, n)].message
  {
    assert PendingKey(k, n) in pending ==> PendingKey(k, n).sequence in Inflight(pending, k);
  }

  function GetOr<K, V>(m: map<K, seq<V>>, k: K): seq<V> {
    if k in m then m[k] else []
  }

  lemma InflightCount(k: SessionKey, keys: set<PendingKey>)
    requires forall key :: key in keys ==> key.session == k
    ensures |set key | key in keys :: key.sequence| == |keys|
  {
    if key :| key in keys {
      InflightCount(k, keys - {key});
      assert (set x | x in keys :: x.sequence) == (set x | x in keys - {key} :: x.sequence) + {key.sequence};
      assert key.sequence !in set x | x in keys - {key} :: x.sequence by {
        forall x | x in keys - {key} ensures x.sequence != key.sequence {
          assert x == PendingKey(k, x.sequence) && key == PendingKey(k, key.sequence);
        }
      }
    }
  }

  lemma InflightUpdate(pending: map<PendingKey, Pending>, key: PendingKey, p: Pending, k: SessionKey)
    ensures Inflight(pending[key := p], k) ==
            if key.session == k then Inflight(pending, k)[key.sequence := p.message] else Inflight(pending, k)
  {
    var after := Inflight(pending[key := p], k);
    var expected := if key.session == k then Inflight(pending, k)[key.sequence := p.message] else Inflight(pending, k);
    hide Inflight;
    forall n ensures (n in after <==> n in expected) && (n in after ==> after[n] == expected[n]) {
      InflightIs(pending[key := p], k, n);
      InflightIs(pending, k, n);
    }
    assert after == expected;
  }

  lemma InflightRemove(pending: map<PendingKey, Pending>, key: PendingKey, k: SessionKey)
    ensures Inflight(pending - {key}, k) ==
            if key.session == k then Inflight(pending, k) - {key.sequence} else Inflight(pending, k)
  {
    var after := Inflight(pending - {key}, k);
    var expected := if key.session == k then Inflight(pending, k) - {key.sequence} else Inflight(pending, k);
    forall n ensures n in after <==> n in expected {
      assert PendingKey(k, n) in pending - {key} <==> PendingKey(k, n) != key && PendingKey(k, n) in pending;
    }
  }

  lemma InflightRekeyed(pending: map<PendingKey, Pending>, key: PendingKey, onto: SessionKey, p: Pending, k: SessionKey)
    requires key.session != onto
    ensures Inflight((pending - {key})[PendingKey(onto, key.sequence) := p], k) ==
            if k == key.session then Inflight(pending, k) - {key.sequence}
            else if k == onto then Inflight(pending, k)[key.sequence := p.message]
            else Inflight(pending, k)
  {
    InflightRemove(pending, key, k);
    InflightUpdate(pending - {key}, PendingKey(onto, key.sequence), p, k);
  }

  lemma InflightWithout(pending: map<PendingKey, Pending>, gone: set<PendingKey>, k: SessionKey)
    requires forall key :: key in pending && key.session == k ==> key in gone
    ensures Inflight(pending - gone, k) == map[]
  {
    assert forall n :: n !in Inflight(pending - gone, k).Keys;
    assert Inflight(pending - gone, k).Keys == {};
  }

  lemma InflightUntouched(pending: map<PendingKey, Pending>, gone: set<PendingKey>, k: SessionKey)
    requires forall key :: key in gone ==> key.session != k
    ensures Inflight(pending - gone, k) == Inflight(pending, k)
  {
    forall n ensures n in Inflight(pending - gone, k) <==> n in Inflight(pending, k) {
      assert PendingKey(k, n) in pending - gone <==> PendingKey(k, n) in pending;
    }
  }

  lemma MovedNone(base: map<int, Message>, was: map<int, Message>, to: Endpoint)
    ensures base + ReaddressEach(was - was.Keys, to) == base && was - (was.Keys - was.Keys) == was
  {
    assert was - was.Keys == map[];
  }

  lemma MovedAll(was: map<int, Message>)
    ensures was - {} == was && was - (was.Keys - {}) == map[]
  {
  }

  ghost predicate SameMessages(p: map<PendingKey, Pending>, q: map<PendingKey, Pending>) {
    p.Keys == q.Keys && forall key :: key in p ==> p[key].message == q[key].message
  }

  lemma InflightAttempt(pending: map<PendingKey, Pending>, key: PendingKey, k: SessionKey)
    requires key in pending
    ensures Inflight(pending[key := pending[key].(attempts := pending[key].attempts + 1)], k) == Inflight(pending, k)
  {
    InflightUpdate(pending, key, pending[key].(attempts := pending[key].attempts + 1), k);
    InflightIs(pending, key.session, key.sequence);
  }

  lemma AttemptChangesNothing(pending: map<PendingKey, Pending>, key: PendingKey, after: map<PendingKey, Pending>)
    requires key in pending && after == pending[key := pending[key].(attempts := pending[key].attempts + 1)]
    ensures forall k :: Inflight(after, k) == Inflight(pending, k)
    ensures SameMessages(after, pending)
  {
    forall k ensures Inflight(after, k) == Inflight(pending, k) { InflightAttempt(pending, key, k); }
  }

  /** One more packet re-keyed, of those not in `left`. */
  lemma MovedOneMore(base: map<int, Message>, was: map<int, Message>, left: set<int>, n: int, to: Endpoint)
    requires n in was && n in left
    ensures base + ReaddressEach(was - (left - {n}), to)
         == (base + ReaddressEach(was - left, to))[n := Readdress(was[n], to)]
    ensures was - (was.Keys - (left - {n})) == was - (was.Keys - left) - {n}
  {
  }

  lemma SubmitAllSnoc(ch: Channel, ms: seq<Message>, m: Message)
    ensures SubmitAll(ch, ms + [m]) == Submit(SubmitAll(ch, ms), m)
  {
    assert (ms + [m])[..|ms|] == ms;
  }

  lemma ForSnoc(ms: seq<Message>, i: nat, k: SessionKey)
    requires i < |ms|
    ensures For(ms[..i + 1], k) == For(ms[..i], k) + if ms[i].Reliable() && KeyOf(ms[i]) == k then [ms[i]] else []
  {
    assert ms[..i + 1][..i] == ms[..i];
  }

  lemma OneMoreFor(ch: Channel, ms: seq<Message>, i: nat, k: SessionKey)
    requires i < |ms|
    ensures SubmitAll(ch, For(ms[..i + 1], k))
         == if ms[i].Reliable() && KeyOf(ms[i]) == k then Submit(SubmitAll(ch, For(ms[..i], k)), ms[i])
            else SubmitAll(ch, For(ms[..i], k))
  {
    ForSnoc(ms, i, k);
    SubmitAllSnoc(ch, For(ms[..i], k), ms[i]);
    assert For(ms[..i], k) + [] == For(ms[..i], k);
  }

  ghost predicate MovesOntoIdle(move: Move, idle: iset<SessionKey>) {
    move.Some? ==> SessionKey(move.value.1, move.value.2) in idle
  }

  function AckedIn(acks: seq<(SessionKey, int)>, k: SessionKey): set<int> {
    set a | a in acks && a.0 == k :: a.1
  }

  lemma OneMoreAckIn(acks: seq<(SessionKey, int)>, i: nat)
    requires i < |acks|
    ensures forall k :: AckedIn(acks[..i + 1], k) == AckedIn(acks[..i], k) + if acks[i].0 == k then {acks[i].1} else {}
  {
    assert acks[..i + 1] == acks[..i] + [acks[i]];
    forall k ensures AckedIn(acks[..i + 1], k) == AckedIn(acks[..i], k) + if acks[i].0 == k then {acks[i].1} else {} {
      assert acks[i] in acks[..i + 1];
    }
  }

  /** The channel without the packets of these numbers. */
  function Less(ch: Channel, numbers: set<int>): Channel {
    ch.(pending := ch.pending - numbers)
  }

  lemma NothingLess(ch: Channel, acks: seq<(SessionKey, int)>, k: SessionKey)
    ensures Less(ch, AckedIn(acks[..0], k)) == ch
  {
    assert ch.pending - {} == ch.pending;
    assert AckedIn(acks[..0], k) == {};
  }

  lemma OneLess(ch: Channel, acks: seq<(SessionKey, int)>, i: nat, k: SessionKey)
    requires i < |acks|
    ensures Less(ch, AckedIn(acks[..i + 1], k))
         == var before := Less(ch, AckedIn(acks[..i], k));
            if acks[i].0 == k then Acked(before, acks[i].1) else before
  {
    OneMoreAckIn(acks, i);
    var numbers := AckedIn(acks[..i], k);
    assert ch.pending - (numbers + {acks[i].1}) == ch.pending - numbers - {acks[i].1};
    assert numbers + {} == numbers;
  }

  lemma ReadIsAcked(acks: seq<(SessionKey, int)>, acked: SessionKey -> set<int>)
    requires forall k, n :: (k, n) in acks <==> n in acked(k)
    ensures forall k :: AckedIn(acks, k) == acked(k)
  {
    forall k, n ensures n in AckedIn(acks, k) <==> n in acked(k) {
      if n in AckedIn(acks, k) {
        var a :| a in acks && a.0 == k && a.1 == n;
        assert a == (k, n);
      }
      if n in acked(k) { assert (k, n).1 in AckedIn(acks, k); }
    }
  }

  lemma OneMoreAck(received: seq<Message>, i: nat, endpoint: Endpoint, resolve: int -> int)
    requires i < |received|
    ensures forall k :: AckedBy(received[..i + 1], endpoint, resolve, k)
              == AckedBy(received[..i], endpoint, resolve, k) + OneAck(received[i], endpoint, resolve, k)
  {
    var m := received[i];
    assert received[..i + 1] == received[..i] + [m];
    forall k
      ensures AckedBy(received[..i + 1], endpoint, resolve, k)
           == AckedBy(received[..i], endpoint, resolve, k) + OneAck(m, endpoint, resolve, k)
    {
      assert m in received[..i + 1];
    }
  }

  function OneAck(m: Message, endpoint: Endpoint, resolve: int -> int, k: SessionKey): set<int> {
    if !m.embedded && m.Response() && k == SessionKey(endpoint, resolve(m.sessionId)) then {m.acknowledge} else {}
  }

  class UdpSender {
    var reliablePending: map<PendingKey, Pending>
    var deferredReliable: map<SessionKey, seq<Message>>
    /** History: the first sends of each session since its tables were last dropped. */
    ghost var firstSent: map<SessionKey, seq<Message>>

    constructor ()
      ensures forall k :: ChannelOf(k) == IDLE
    {
      reliablePending, deferredReliable, firstSent := map[], map[], map[];
    }

    ghost function ChannelOf(k: SessionKey): Channel
      reads this
    {
      Channel(Inflight(reliablePending, k), GetOr(deferredReliable, k), GetOr(firstSent, k))
    }

    method PendingCountForSession(k: SessionKey) returns (count: nat)
      ensures count == |Inflight(reliablePending, k)|
    {
      count := 0;
      var rest := reliablePending.Keys;
      ghost var counted := {};
      while rest != {}
        invariant counted == set key | key in reliablePending.Keys - rest && key.session == k
        invariant rest <= reliablePending.Keys && count == |counted|
        decreases rest
      {
        var key :| key in rest;
        rest := rest - {key};
        if key.session == k {
          assert key !in counted;
          counted := counted + {key};
          count := count + 1;
        }
      }
      InflightCount(k, counted);
      assert (set key | key in counted :: key.sequence) == Inflight(reliablePending, k).Keys;
    }

    method OldestPendingSequenceForSession(k: SessionKey) returns (oldest: Option<int>)
      ensures oldest == None <==> Inflight(reliablePending, k) == map[]
      ensures oldest.Some? ==>
                && oldest.value in Inflight(reliablePending, k)
                && forall p :: p in Inflight(reliablePending, k) ==> oldest.value <= p
    {
      oldest := None;
      var rest := reliablePending.Keys;
      while rest != {}
        invariant rest <= reliablePending.Keys
        invariant oldest.Some? ==> PendingKey(k, oldest.value) in reliablePending
        invariant forall key :: key in reliablePending.Keys - rest && key.session == k ==>
                                  oldest.Some? && oldest.value <= key.sequence
        decreases rest
      {
        var key :| key in rest;
        rest := rest - {key};
        if key.session == k && (oldest == None || key.sequence < oldest.value) {
          oldest := Some(key.sequence);
        }
      }
      forall n ensures n in Inflight(reliablePending, k) <==> PendingKey(k, n) in reliablePending.Keys - rest {
        InflightIs(reliablePending, k, n);
      }
      assert oldest == None ==> Inflight(reliablePending, k).Keys == {};
    }

    method InflightWindowHasRoom(k: SessionKey, sequence: int) returns (room: bool)
      ensures room == HasRoom(Inflight(reliablePending, k), sequence)
    {
      var count := PendingCountForSession(k);
      if count >= MAX_INFLIGHT {
        return false;
      }
      var oldest := OldestPendingSequenceForSession(k);
      if oldest == None {
        return true;
      }
      return sequence - oldest.value < MAX_INFLIGHT;
    }

    /** `_track_reliable` and the send itself; an unreliable message leaves no trace in the tables. */
    method SendEncodedMessage(m: Message)
      requires Valid()
      modifies this`reliablePending, this`firstSent
      ensures Valid()
      ensures forall k :: ChannelOf(k) ==
                if m.Reliable() && k == KeyOf(m) then Send(old(ChannelOf(k)), m) else old(ChannelOf(k))
    {
      if m.Reliable() {
        var k := KeyOf(m);
        reliablePending := reliablePending[PendingKey(k, m.sequence) := Pending(m, 0)];
        firstSent := firstSent[k := GetOr(firstSent, k) + [m]];
        forall k' ensures ChannelOf(k') == if k' == k then Send(old(ChannelOf(k')), m) else old(ChannelOf(k')) {
          InflightUpdate(old(reliablePending), PendingKey(k, m.sequence), Pending(m, 0), k');
        }
      }
    }

    /** Every table entry is filed under its own message's address, session and number. */
    ghost predicate Valid()
      reads this
    {
      && (forall key :: key in reliablePending ==>
            && KeyOf(reliablePending[key].message) == key.session
            && reliablePending[key].message.sequence == key.sequence)
      && (forall k, m :: k in deferredReliable && m in deferredReliable[k] ==> KeyOf(m) == k && m.Reliable())
    }

    ghost predicate AllFlowing()
      reads this
    {
      forall k :: NotStalled(ChannelOf(k))
    }

    ghost predicate AllWithinWindow()
      reads this
    {
      forall k :: WithinWindow(ChannelOf(k))
    }

    method ShouldDeferReliable(m: Message) returns (defer: bool)
      ensures defer <==>
                && m.Reliable()
                && (ChannelOf(KeyOf(m)).deferred != [] || !HasRoom(ChannelOf(KeyOf(m)).pending, m.sequence))
    {
      if !m.Reliable() {
        return false;
      }
      var k := KeyOf(m);
      if k in deferredReliable && deferredReliable[k] != [] {
        return true;
      }
      var room := InflightWindowHasRoom(k, m.sequence);
      return !room;
    }

    method EnqueueDeferredReliable(m: Message)
      requires Valid() && m.Reliable()
      modifies this`deferredReliable
      ensures Valid()
      ensures forall k :: ChannelOf(k) == if k == KeyOf(m)
              then old(ChannelOf(k)).(deferred := old(ChannelOf(k)).deferred + [m]) else old(ChannelOf(k))
    {
      var k := KeyOf(m);
      deferredReliable := deferredReliable[k := GetOr(deferredReliable, k) + [m]];
    }

    method SendHead(k: SessionKey)
      requires Valid() && k in deferredReliable && deferredReliable[k] != []
      modifies this
      ensures Valid() && deferredReliable == old(deferredReliable)[k := old(deferredReliable)[k][1..]]
      ensures ChannelOf(k) == Send(old(ChannelOf(k)).(deferred := old(deferredReliable)[k][1..]),
              old(deferredReliable)[k][0])
      ensures forall k' :: k' != k ==> ChannelOf(k') == old(ChannelOf(k'))
    {
      var head := deferredReliable[k][0];
      assert KeyOf(head) == k && head.Reliable();
      deferredReliable := deferredReliable[k := deferredReliable[k][1..]];
      SendEncodedMessage(head);
    }

    method HeadFits(k: SessionKey) returns (fits: bool)
      requires k in deferredReliable
      ensures fits <==> ChannelOf(k).deferred != [] && HasRoom(ChannelOf(k).pending, ChannelOf(k).deferred[0].sequence)
    {
      if deferredReliable[k] == [] {
        return false;
      }
      fits := InflightWindowHasRoom(k, deferredReliable[k][0].sequence);
    }

    /** Send what one session has deferred while it fits. */
    method FlushSession(k: SessionKey)
      requires Valid() && k in deferredReliable
      modifies this
      ensures Valid() && deferredReliable.Keys == old(deferredReliable.Keys)
      ensures forall k' :: ChannelOf(k') == if k' == k then Flush(old(ChannelOf(k))) else old(ChannelOf(k'))
    {
      var fits := HeadFits(k);
      while fits
        invariant Valid() && k in deferredReliable && deferredReliable.Keys == old(deferredReliable.Keys)
        invariant Flush(ChannelOf(k)) == Flush(old(ChannelOf(k)))
        invariant forall k' :: k' != k ==> ChannelOf(k') == old(ChannelOf(k'))
        invariant fits <==>
                    ChannelOf(k).deferred != [] && HasRoom(ChannelOf(k).pending, ChannelOf(k).deferred[0].sequence)
        decreases |ChannelOf(k).deferred|
      {
        SendHead(k);
        fits := HeadFits(k);
      }
    }

    /** Sessions are visited in any order: their channels are independent. */
    method FlushDeferredReliable()
      requires Valid()
      modifies this
      ensures Valid()
      ensures forall k :: ChannelOf(k) == Flush(old(ChannelOf(k)))
    {
      var sessions := deferredReliable.Keys;
      while sessions != {}
        invariant Valid() && sessions <= deferredReliable.Keys == old(deferredReliable.Keys)
        invariant forall k :: ChannelOf(k) == if k in sessions then old(ChannelOf(k)) else Flush(old(ChannelOf(k)))
        decreases sessions
      {
        var k :| k in sessions;
        FlushSession(k);
        sessions := sessions - {k};
      }
      DropEmptied();
    }

    method DropEmptied()
      requires Valid()
      modifies this`deferredReliable
      ensures Valid()
      ensures forall k :: ChannelOf(k) == old(ChannelOf(k))
    {
      deferredReliable := map k | k in deferredReliable && deferredReliable[k] != [] :: deferredReliable[k];
    }

    method SendMessages(ms: seq<Message>)
      requires Valid()
      modifies this
      ensures Valid()
      ensures forall k :: ChannelOf(k) == SendAll(old(ChannelOf(k)), For(ms, k))
      ensures AllFlowing()
      ensures old(AllWithinWindow()) ==> AllWithinWindow()
    {
      FlushDeferredReliable();
      SubmitEach(ms);
      FlushDeferredReliable();
      forall k
        ensures NotStalled(ChannelOf(k)) && (WithinWindow(old(ChannelOf(k))) ==> WithinWindow(ChannelOf(k)))
      {
        SendAllConserves(old(ChannelOf(k)), For(ms, k));
      }
    }

    method SubmitEach(ms: seq<Message>)
      requires Valid()
      modifies this
      ensures Valid()
      ensures forall k :: ChannelOf(k) == SubmitAll(old(ChannelOf(k)), For(ms, k))
    {
      for i := 0 to |ms|
        invariant Valid()
        invariant forall k :: ChannelOf(k) == SubmitAll(old(ChannelOf(k)), For(ms[..i], k))
      {
        SubmitOne(ms[i]);
        forall k ensures ChannelOf(k) == SubmitAll(old(ChannelOf(k)), For(ms[..i + 1], k)) {
          OneMoreFor(old(ChannelOf(k)), ms, i, k);
        }
      }
      assert ms[..|ms|] == ms;
    }

    method SubmitOne(m: Message)
      requires Valid()
      modifies this
      ensures Valid()
      ensures forall k :: ChannelOf(k) ==
                if m.Reliable() && k == KeyOf(m) then Submit(old(ChannelOf(k)), m) else old(ChannelOf(k))
    {
      var defer := ShouldDeferReliable(m);
      if defer {
        EnqueueDeferredReliable(m);
      } else {
        SendEncodedMessage(m);
      }
    }

    /** An ACK retires the packet of exactly that address, session and number. */
    method ClearReliablePending(k: SessionKey, acknowledge: int)
      requires Valid()
      modifies this`reliablePending
      ensures Valid()
      ensures forall k' :: ChannelOf(k') == if k' == k then Acked(old(ChannelOf(k)), acknowledge)
              else old(ChannelOf(k'))
    {
      reliablePending := reliablePending - {PendingKey(k, acknowledge)};
      forall k' ensures ChannelOf(k') == if k' == k then Acked(old(ChannelOf(k)), acknowledge) else old(ChannelOf(k')) {
        InflightRemove(old(reliablePending), PendingKey(k, acknowledge), k');
      }
    }

    /** `_clear_session_pending` with `_clear_session_deferred`. */
    method ClearSession(k: SessionKey)
      requires Valid()
      modifies this
      ensures Valid()
      ensures reliablePending == old(reliablePending) - (set key | key in old(reliablePending) && key.session == k)
      ensures forall k' :: ChannelOf(k') == if k' == k then IDLE else old(ChannelOf(k'))
    {
      var gone := set key | key in reliablePending && key.session == k;
      reliablePending := reliablePending - gone;
      deferredReliable := deferredReliable - {k};
      firstSent := firstSent - {k};
      forall k' ensures ChannelOf(k') == if k' == k then IDLE else old(ChannelOf(k')) {
        if k' == k {
          InflightWithout(old(reliablePending), gone, k);
        } else {
          InflightUntouched(old(reliablePending), gone, k');
        }
      }
    }

    /** A KICS login drops what its session has anywhere. */
    method ForgetSessionReliables(sessionId: int)
      requires Valid()
      modifies this
      ensures Valid()
      ensures forall k :: ChannelOf(k) == if k.sessionId == sessionId then IDLE else old(ChannelOf(k))
    {
      var gone := set key | key in reliablePending && key.session.sessionId == sessionId;
      reliablePending := reliablePending - gone;
      deferredReliable := map k | k in deferredReliable && k.sessionId != sessionId :: deferredReliable[k];
      firstSent := map k | k in firstSent && k.sessionId != sessionId :: firstSent[k];
      forall k ensures ChannelOf(k) == if k.sessionId == sessionId then IDLE else old(ChannelOf(k)) {
        if k.sessionId == sessionId {
          InflightWithout(old(reliablePending), gone, k);
        } else {
          InflightUntouched(old(reliablePending), gone, k);
        }
      }
    }

    method MoveOne(from: SessionKey, n: int, onto: SessionKey)
      requires Valid() && n in Inflight(reliablePending, from) && from != onto && from.sessionId == onto.sessionId
      modifies this`reliablePending
      ensures Valid()
      ensures forall k :: Inflight(reliablePending, k) ==
                if k == from then Inflight(old(reliablePending), from) - {n}
                else if k == onto then
                  Inflight(old(reliablePending), onto)[
                    n := Readdress(Inflight(old(reliablePending), from)[n], onto.endpoint)]
                else Inflight(old(reliablePending), k)
    {
      var key := PendingKey(from, n);
      InflightIs(reliablePending, from, n);
      var p := reliablePending[key];
      p := p.(message := Readdress(p.message, onto.endpoint));
      reliablePending := (reliablePending - {key})[PendingKey(onto, n) := p];
      forall k ensures Inflight(reliablePending, k) ==
          if k == from then Inflight(old(reliablePending), k) - {n}
          else if k == onto then Inflight(old(reliablePending), k)[n := p.message]
          else Inflight(old(reliablePending), k)
      {
        InflightRekeyed(old(reliablePending), key, onto, p, k);
      }
    }

    /** Re-key what is in flight, one packet at a time. */
    method MovePending(from: SessionKey, onto: SessionKey)
      requires Valid() && from != onto && from.sessionId == onto.sessionId
      modifies this`reliablePending
      ensures Valid()
      ensures Inflight(reliablePending, from) == map[]
      ensures Inflight(reliablePending, onto) ==
              Inflight(old(reliablePending), onto) + ReaddressEach(Inflight(old(reliablePending), from), onto.endpoint)
      ensures forall k :: k != from && k != onto ==> Inflight(reliablePending, k) == Inflight(old(reliablePending), k)
    {
      var rest := PendingNumbers(from);
      ghost var base, was := Inflight(reliablePending, onto), Inflight(reliablePending, from);
      MovedNone(base, was, onto.endpoint);
      while rest != {}
        invariant Valid() && rest <= was.Keys
        invariant MovedUpTo(from, onto, base, was, rest)
        invariant forall k :: k != from && k != onto ==>
                    Inflight(reliablePending, k) == Inflight(old(reliablePending), k)
        decreases rest
      {
        var n :| n in rest;
        MovedOneMore(base, was, rest, n, onto.endpoint);
        MoveOne(from, n, onto);
        rest := rest - {n};
      }
      MovedAll(was);
    }

    method PendingNumbers(k: SessionKey) returns (numbers: set<int>)
      ensures numbers == Inflight(reliablePending, k).Keys
    {
      numbers := set key | key in reliablePending && key.session == k :: key.sequence;
      forall n ensures n in numbers <==> n in Inflight(reliablePending, k) {
        InflightIs(reliablePending, k, n);
      }
    }

    ghost predicate MovedUpTo(from: SessionKey, onto: SessionKey, base: map<int, Message>, was: map<int, Message>,
        rest: set<int>)
      reads this
    {
      && Inflight(reliablePending, from) == was - (was.Keys - rest)
      && Inflight(reliablePending, onto) == base + ReaddressEach(was - rest, onto.endpoint)
    }

    method MoveDeferred(from: SessionKey, onto: SessionKey)
      requires Valid() && from != onto && from.sessionId == onto.sessionId
      modifies this`deferredReliable, this`firstSent
      ensures Valid()
      ensures GetOr(deferredReliable, from) == [] && GetOr(firstSent, from) == []
      ensures GetOr(deferredReliable, onto) == if GetOr(old(deferredReliable), from) != []
                then ReaddressAll(GetOr(old(deferredReliable), from), onto.endpoint)
                    else GetOr(old(deferredReliable), onto)
      ensures GetOr(firstSent, onto) == GetOr(old(firstSent), onto)
              + ReaddressAll(GetOr(old(firstSent), from), onto.endpoint)
      ensures forall k :: k != from && k != onto ==>
                GetOr(deferredReliable, k) == GetOr(old(deferredReliable), k)
                    && GetOr(firstSent, k) == GetOr(old(firstSent), k)
    {
      var deferred := GetOr(deferredReliable, from);
      var moved := ReaddressAll(deferred, onto.endpoint);
      forall m | m in moved ensures KeyOf(m) == onto && m.Reliable() {
        var i :| 0 <= i < |moved| && moved[i] == m;
        assert from in deferredReliable && deferred[i] in deferredReliable[from];
        assert KeyOf(deferred[i]) == from && deferred[i].Reliable();
        assert moved[i] == Readdress(deferred[i], onto.endpoint);
      }
      deferredReliable := deferredReliable - {from};
      if deferred != [] {
        deferredReliable := deferredReliable[onto := moved];
      }
      firstSent := (firstSent - {from})[onto := GetOr(firstSent, onto)
          + ReaddressAll(GetOr(firstSent, from), onto.endpoint)];
    }

    /** `_move_session_transport` of a session that has no framed link. */
    method MoveSessionTransport(oldEnd: Endpoint, newEnd: Endpoint, sessionId: int)
      requires Valid() && oldEnd != newEnd
      modifies this
      ensures Valid()
      ensures var from, onto := SessionKey(oldEnd, sessionId), SessionKey(newEnd, sessionId);
              forall k :: ChannelOf(k) ==
                if k == onto then Moved(old(ChannelOf(from)), old(ChannelOf(onto)), newEnd)
                else if k == from then IDLE
                else old(ChannelOf(k))
    {
      var from, onto := SessionKey(oldEnd, sessionId), SessionKey(newEnd, sessionId);
      MovePending(from, onto);
      MoveDeferred(from, onto);
    }

    /** Resend one due packet. */
    method Resend(key: PendingKey) returns (m: Message)
      requires Valid() && key in reliablePending
      modifies this`reliablePending
      ensures Valid() && m == old(reliablePending)[key].message
      ensures SameMessages(reliablePending, old(reliablePending))
      ensures forall k :: ChannelOf(k) == old(ChannelOf(k))
    {
      var p := reliablePending[key];
      reliablePending := reliablePending[key := p.(attempts := p.attempts + 1)];
      m := p.message;
      AttemptChangesNothing(old(reliablePending), key, reliablePending);
    }

    /** The tables as one function from sessions to channels. */
    ghost function NetNow(): (net: Net)
      reads this
      ensures forall k :: net(k) == ChannelOf(k)
    {
      var pending, deferred, sent := reliablePending, deferredReliable, firstSent;
      k => Channel(Inflight(pending, k), GetOr(deferred, k), GetOr(sent, k))
    }

    /**
      `_retransmit_due`. Keys are visited in `order`; a session that is gone is
      dropped, and so is one whose packet times out, whose clean-up messages are
      then sent; every other due packet is resent.
     */
    method RetransmitDue(order: seq<PendingKey>, o: Outside)
      returns (resent: seq<Message>, dropped: set<SessionKey>, cleaned: seq<Message>)
      requires Valid() && AllFlowing()
      modifies this
      ensures Valid() && AllFlowing()
      ensures old(AllWithinWindow()) ==> AllWithinWindow()
      ensures var r := Visits(old(NetNow()), order, o);
              && resent == r.resent && dropped == r.dropped && cleaned == r.cleaned
              && forall k :: ChannelOf(k) == r.net(k)
    {
      hide Valid, AllFlowing, AllWithinWindow, Visited, InFlight, TimesOut, ChannelOf;
      resent, dropped, cleaned := [], {}, [];
      var ended: seq<SessionKey> := [];
      ghost var net := NetNow();
      for i := 0 to |order|
        invariant Valid() && AllFlowing()
        invariant old(AllWithinWindow()) ==> AllWithinWindow()
        invariant SoFar(Visits(net, order[..i], o), resent, dropped, cleaned, ended)
      {
        assert order[..i + 1][..i] == order[..i];
        ghost var r, before := Visits(net, order[..i], o), NetNow();
        var key := order[i];
        var one, drops, sent := RetransmitOne(key, o.gone(ended), o.inactive, o.due, o.cleanup(ended + [key.session]));
        VisitedIs(r, key, o, before, NetNow(), one, drops, sent);
        resent, cleaned := resent + one, cleaned + sent;
        if drops {
          dropped := dropped + {key.session};
          ended := if key.session in o.gone(ended) then ended else ended + [key.session];
        }
        assert SoFar(Visited(r, key, o), resent, dropped, cleaned, ended);
      }
      assert order[..|order|] == order;
    }

    ghost predicate SoFar(
      r: Resending, resent: seq<Message>, dropped: set<SessionKey>, cleaned: seq<Message>, ended: seq<SessionKey>)
      reads this
    {
      && resent == r.resent && dropped == r.dropped && cleaned == r.cleaned && ended == r.ended
      && forall k :: ChannelOf(k) == r.net(k)
    }

    method RetransmitOne(
      key: PendingKey, gone: set<SessionKey>, inactive: set<PendingKey>, due: set<PendingKey>, cleanup: seq<Message>)
      returns (resent: seq<Message>, drops: bool, sent: seq<Message>)
      requires Valid() && AllFlowing()
      modifies this
      ensures Valid() && AllFlowing()
      ensures old(AllWithinWindow()) ==> AllWithinWindow()
      ensures drops <==> InFlight(old(NetNow()), key) && (key.session in gone || TimesOut(old(NetNow()), key, inactive))
      ensures sent == if drops && key.session !in gone then cleanup else []
      ensures resent == if InFlight(old(NetNow()), key) && !drops && key in due
                        then [old(ChannelOf(key.session)).pending[key.sequence]] else []
      ensures forall k :: ChannelOf(k) ==
                var ch := if drops && k == key.session then IDLE else old(ChannelOf(k));
                if sent == [] then ch else SendAll(ch, For(sent, k))
    {
      resent, drops, sent := [], false, [];
      InflightIs(reliablePending, key.session, key.sequence);
      if key in reliablePending {
        if key.session in gone {
          ClearSession(key.session);
          drops := true;
        } else if key in inactive && reliablePending[key].message.command != CMD_ACK {
          TimeOutSession(key.session, cleanup);
          drops, sent := true, cleanup;
        } else if key in due {
          var m := Resend(key);
          resent := [m];
        }
      }
    }

    /** Drop the session's tables, then send the callbacks its end produced. */
    method TimeOutSession(k: SessionKey, cleanup: seq<Message>)
      requires Valid() && AllFlowing()
      modifies this
      ensures Valid() && AllFlowing()
      ensures old(AllWithinWindow()) ==> AllWithinWindow()
      ensures forall k' :: ChannelOf(k') ==
                var ch := if k' == k then IDLE else old(ChannelOf(k'));
                if cleanup == [] then ch else SendAll(ch, For(cleanup, k'))
    {
      ClearSession(k);
      if cleanup != [] {
        SendMessages(cleanup);
      }
    }

    /** The exact ACKs of a datagram: on its top-level messages with the response flag, by resolved session. */
    method ReadAcks(received: seq<Message>, endpoint: Endpoint, resolve: int -> int)
      returns (acks: seq<(SessionKey, int)>)
      ensures forall k, n :: (k, n) in acks <==> n in AckedBy(received, endpoint, resolve, k)
    {
      acks := [];
      for i := 0 to |received|
        invariant forall k, n :: (k, n) in acks <==> n in AckedBy(received[..i], endpoint, resolve, k)
      {
        var m := received[i];
        OneMoreAck(received, i, endpoint, resolve);
        if !m.embedded && m.Response() {
          acks := acks + [(SessionKey(endpoint, resolve(m.sessionId)), m.acknowledge)];
        }
      }
      assert received[..|received|] == received;
    }

    /**
      One turn of the receive loop: retire the ACKs a datagram carries, follow a
      port move, drop restarted epochs, send the answers; perhaps tick; resend.
      However a turn goes, no channel is left stalled, and if a move finds
      nothing at the new address no channel exceeds the window.
     */
    method ReceiveLoopTurn(
      received: seq<Message>, endpoint: Endpoint, resolve: int -> int, move: Move, restarts: seq<int>,
      answers: seq<Message>, tick: seq<Message>, order: seq<PendingKey>, o: Outside)
      returns (resent: seq<Message>, dropped: set<SessionKey>, cleaned: seq<Message>)
      requires Valid() && (move.Some? ==> move.value.0 != move.value.1)
      modifies this
      ensures Valid() && AllFlowing()
      ensures old(AllWithinWindow()) && MovesOntoIdle(move, old(Idle())) ==> AllWithinWindow()
      ensures var acked := k => AckedBy(received, endpoint, resolve, k);
              var r := Turn(old(NetNow()), acked, move, restarts, answers, tick, order, o);
              && resent == r.resent && dropped == r.dropped && cleaned == r.cleaned
              && forall k :: ChannelOf(k) == r.net(k)
      // An ACK retires its packet.
      ensures forall k, n :: n in AckedBy(received, endpoint, resolve, k) && !Departs(move, k) && !Arrives(move, k) ==>
                || WaitsOrComes(old(ChannelOf(k)), Offered(answers, tick, cleaned, k), n)
                || (n !in ChannelOf(k).pending && forall m :: m in resent && KeyOf(m) == k ==> m.sequence != n)
      // A session neither moved, restarted nor dropped has all that is sent to it behind its earlier work.
      ensures forall k :: !Departs(move, k) && !Arrives(move, k) && k.sessionId !in restarts && k !in dropped ==>
                Accepted(ChannelOf(k)) == Accepted(old(ChannelOf(k))) + Offered(answers, tick, cleaned, k)
    {
      hide AllFlowing, AllWithinWindow, AckedBy, Visits, Sent, Settled, Offered, Accepted;
      ghost var acked := k => AckedBy(received, endpoint, resolve, k);
      ghost var net := NetNow();
      NetIsFiled();
      Settle(received, endpoint, resolve, move, restarts);
      resent, dropped, cleaned := SendAndResend(answers, tick, order, o, Settled(net, acked, move, restarts));
      TurnProperties(net, acked, move, restarts, answers, tick, order, o);
    }

    lemma NetIsFiled()
      requires Valid()
      ensures forall k :: Filed(NetNow()(k), k)
    {
      forall k ensures Filed(ChannelOf(k), k) {
        forall n | n in Inflight(reliablePending, k)
          ensures KeyOf(Inflight(reliablePending, k)[n]) == k && Inflight(reliablePending, k)[n].sequence == n
        {
          InflightIs(reliablePending, k, n);
        }
      }
    }

    method ProcessTransportAcks(
      received: seq<Message>, endpoint: Endpoint, resolve: int -> int, ghost acked: SessionKey -> set<int>)
      requires Valid() && forall k :: acked(k) == AckedBy(received, endpoint, resolve, k)
      modifies this`reliablePending
      ensures Valid() && (old(AllWithinWindow()) ==> AllWithinWindow())
      ensures forall k :: old(ChannelOf(k)) == IDLE ==> ChannelOf(k) == IDLE
      ensures forall k :: ChannelOf(k) == Retired(old(NetNow()), acked)(k)
    {
      hide Valid, AllWithinWindow, ChannelOf, AckedBy, AckedIn;
      var acks := ReadAcks(received, endpoint, resolve);
      RetireAcks(acks);
      ReadIsAcked(acks, acked);
    }

    method Settle(received: seq<Message>, endpoint: Endpoint, resolve: int -> int, move: Move, restarts: seq<int>)
      requires Valid() && (move.Some? ==> move.value.0 != move.value.1)
      modifies this
      ensures Valid() && (old(AllWithinWindow()) && MovesOntoIdle(move, old(Idle())) ==> AllWithinWindow())
      ensures var acked := k => AckedBy(received, endpoint, resolve, k);
              forall k :: ChannelOf(k) == Settled(old(NetNow()), acked, move, restarts)(k)
    {
      hide Valid, AllWithinWindow, ChannelOf, AckedBy, Moved, Settled, Readdressed, Retired;
      ghost var acked := k => AckedBy(received, endpoint, resolve, k);
      ghost var net := NetNow();
      ProcessTransportAcks(received, endpoint, resolve, acked);
      ghost var retired := NetNow();
      FollowMove(move);
      ghost var moved := NetNow();
      ForgetAll(restarts);
      SettledIs(net, acked, move, restarts, retired, moved, NetNow());
    }

    method SendAndResend(
      answers: seq<Message>, tick: seq<Message>, order: seq<PendingKey>, o: Outside, ghost settled: Net)
      returns (resent: seq<Message>, dropped: set<SessionKey>, cleaned: seq<Message>)
      requires Valid() && forall k :: ChannelOf(k) == settled(k)
      modifies this
      ensures Valid() && AllFlowing()
      ensures old(AllWithinWindow()) ==> AllWithinWindow()
      ensures var r := Visits(Sent(Sent(settled, answers), tick), order, o);
              && resent == r.resent && dropped == r.dropped && cleaned == r.cleaned
              && forall k :: ChannelOf(k) == r.net(k)
    {
      hide Valid, AllFlowing, AllWithinWindow, ChannelOf, Visits, SendAll, For;
      SendMessages(answers);
      SendMessages(tick);
      assert forall k :: NetNow()(k) == Sent(Sent(settled, answers), tick)(k);
      SameNetSameVisits(NetNow(), Sent(Sent(settled, answers), tick), order, o);
      resent, dropped, cleaned := RetransmitDue(order, o);
    }

    /** The channels with nothing in them. */
    ghost function Idle(): iset<SessionKey>
      reads this
      requires Valid()
    {
      iset k | ChannelOf(k) == IDLE
    }

    method RetireAcks(acks: seq<(SessionKey, int)>)
      requires Valid()
      modifies this`reliablePending
      ensures Valid() && (old(AllWithinWindow()) ==> AllWithinWindow())
      ensures forall k :: old(ChannelOf(k)) == IDLE ==> ChannelOf(k) == IDLE
      ensures forall k :: ChannelOf(k) == Less(old(ChannelOf(k)), AckedIn(acks, k))
    {
      hide Valid, AllWithinWindow, ChannelOf, Acked, AckedIn, Less;
      ghost var net := NetNow();
      forall k ensures net(k) == Less(net(k), AckedIn(acks[..0], k)) { NothingLess(net(k), acks, k); }
      for i := 0 to |acks|
        invariant Valid() && (old(AllWithinWindow()) ==> AllWithinWindow())
        invariant forall k :: net(k) == IDLE ==> ChannelOf(k) == IDLE
        invariant forall k :: ChannelOf(k) == Less(net(k), AckedIn(acks[..i], k))
      {
        AckOne(acks[i].0, acks[i].1);
        forall k ensures ChannelOf(k) == Less(net(k), AckedIn(acks[..i + 1], k)) { OneLess(net(k), acks, i, k); }
      }
      assert acks[..|acks|] == acks;
    }

    method AckOne(k: SessionKey, acknowledge: int)
      requires Valid()
      modifies this`reliablePending
      ensures Valid()
      ensures old(AllWithinWindow()) ==> AllWithinWindow()
      ensures forall k' :: old(ChannelOf(k')) == IDLE ==> ChannelOf(k') == IDLE
      ensures forall k' :: ChannelOf(k') == if k' == k then Acked(old(ChannelOf(k)), acknowledge)
              else old(ChannelOf(k'))
    {
      ClearReliablePending(k, acknowledge);
      assert (Inflight(old(reliablePending), k) - {acknowledge}).Keys
          == Inflight(old(reliablePending), k).Keys - {acknowledge};
      assert forall k' :: WithinWindow(old(ChannelOf(k'))) ==> WithinWindow(ChannelOf(k'));
      assert IDLE.pending - {acknowledge} == IDLE.pending;
    }

    method FollowMove(move: Move)
      requires Valid() && (move.Some? ==> move.value.0 != move.value.1)
      modifies this
      ensures Valid() && (old(AllWithinWindow()) && MovesOntoIdle(move, old(Idle())) ==> AllWithinWindow())
      ensures forall k :: ChannelOf(k) == Readdressed(old(NetNow()), move)(k)
    {
      if move.Some? {
        MoveWithin(move.value.0, move.value.1, move.value.2);
      }
    }

    method ForgetAll(restarts: seq<int>)
      requires Valid()
      modifies this
      ensures Valid() && (old(AllWithinWindow()) ==> AllWithinWindow())
      ensures forall k: SessionKey :: ChannelOf(k) == if k.sessionId in restarts then IDLE else old(ChannelOf(k))
    {
      for i := 0 to |restarts|
        invariant Valid() && (old(AllWithinWindow()) ==> AllWithinWindow())
        invariant forall k: SessionKey ::
          ChannelOf(k) == if k.sessionId in restarts[..i] then IDLE else old(ChannelOf(k))
      {
        ForgetSessionReliables(restarts[i]);
        assert restarts[..i + 1] == restarts[..i] + [restarts[i]];
      }
      assert restarts[..|restarts|] == restarts;
    }

    method MoveWithin(oldEnd: Endpoint, newEnd: Endpoint, sessionId: int)
      requires Valid() && oldEnd != newEnd
      modifies this
      ensures Valid()
      ensures old(AllWithinWindow()) && old(ChannelOf(SessionKey(newEnd, sessionId))) == IDLE ==> AllWithinWindow()
      ensures forall k :: ChannelOf(k) == Readdressed(old(NetNow()), Some((oldEnd, newEnd, sessionId)))(k)
    {
      ghost var from, onto := SessionKey(oldEnd, sessionId), SessionKey(newEnd, sessionId);
      ghost var source, target := ChannelOf(from), ChannelOf(onto);
      ghost var within := AllWithinWindow();
      assert within ==> WithinWindow(source);
      MoveSessionTransport(oldEnd, newEnd, sessionId);
      MoveOntoIdle(source, newEnd);
      hide Moved, Inflight, ChannelOf;
      if within && target == IDLE {
        forall k ensures WithinWindow(ChannelOf(k)) {
          assert k == onto || k == from || WithinWindow(old(ChannelOf(k)));
        }
      }
    }
  }
}
