/**
  What the sender does for one endpoint and session (opensnap/udp_server.py):
  at most 16 reliable packets in flight, the rest deferred behind them in a FIFO.
 */
module Channel {
  import opened Snap

  const MAX_INFLIGHT := 16

  /** `sent` is the history of first sends, oldest first. */
  datatype Channel = Channel(pending: map<int, Message>, deferred: seq<Message>, sent: seq<Message>)

  const IDLE := Channel(map[], [], [])

  predicate HasRoom(pending: map<int, Message>, sequence: int) {
    |pending| < MAX_INFLIGHT && forall p :: p in pending ==> sequence - p < MAX_INFLIGHT
  }

  function Send(ch: Channel, m: Message): Channel {
    ch.(pending := ch.pending[m.sequence := m], sent := ch.sent + [m])
  }

  function Flush(ch: Channel): Channel
    decreases |ch.deferred|
  {
    if ch.deferred != [] && HasRoom(ch.pending, ch.deferred[0].sequence)
    then Flush(Send(ch.(deferred := ch.deferred[1..]), ch.deferred[0]))
    else ch
  }

  function Submit(ch: Channel, m: Message): Channel {
    if ch.deferred != [] || !HasRoom(ch.pending, m.sequence)
    then ch.(deferred := ch.deferred + [m])
    else Send(ch, m)
  }

  function SubmitAll(ch: Channel, ms: seq<Message>): Channel {
    if ms == [] then ch else Submit(SubmitAll(ch, ms[..|ms| - 1]), ms[|ms| - 1])
  }

  /** `_send_messages`, as one channel sees it. */
  function SendAll(ch: Channel, ms: seq<Message>): Channel {
    Flush(SubmitAll(Flush(ch), ms))
  }

  function Acked(ch: Channel, sequence: int): Channel {
    ch.(pending := ch.pending - {sequence})
  }

  /** Everything submitted so far, in order: what was sent, then what still waits. */
  function Accepted(ch: Channel): seq<Message> {
    ch.sent + ch.deferred
  }

  /** Deferred work means the head of the queue does not fit beside what is in flight. */
  predicate NotStalled(ch: Channel) {
    ch.deferred != [] ==> !HasRoom(ch.pending, ch.deferred[0].sequence)
  }

  predicate WithinWindow(ch: Channel) {
    |ch.pending| <= MAX_INFLIGHT
  }

  // Order, conservation and the in-flight bound.

  lemma SendKeepsWindow(ch: Channel, m: Message)
    requires HasRoom(ch.pending, m.sequence)
    ensures WithinWindow(Send(ch, m))
  {
    assert (ch.pending[m.sequence := m]).Keys == ch.pending.Keys + {m.sequence};
  }

  lemma {:induction false} FlushConserves(ch: Channel)
    ensures Accepted(Flush(ch)) == Accepted(ch)
    ensures WithinWindow(ch) ==> WithinWindow(Flush(ch))
    ensures NotStalled(Flush(ch))
    ensures |Flush(ch).sent| >= |ch.sent|
    decreases |ch.deferred|
  {
    if ch.deferred != [] && HasRoom(ch.pending, ch.deferred[0].sequence) {
      var m, ch1 := ch.deferred[0], Send(ch.(deferred := ch.deferred[1..]), ch.deferred[0]);
      SendKeepsWindow(ch.(deferred := ch.deferred[1..]), m);
      FlushConserves(ch1);
      assert ch.deferred == [m] + ch.deferred[1..];
    }
  }

  lemma {:induction false} SubmitAllConserves(ch: Channel, ms: seq<Message>)
    ensures Accepted(SubmitAll(ch, ms)) == Accepted(ch) + ms
    ensures WithinWindow(ch) ==> WithinWindow(SubmitAll(ch, ms))
    ensures NotStalled(ch) ==> NotStalled(SubmitAll(ch, ms))
  {
    if ms != [] {
      var n, m := |ms| - 1, ms[|ms| - 1];
      SubmitAllConserves(ch, ms[..n]);
      var before := SubmitAll(ch, ms[..n]);
      if before.deferred == [] && HasRoom(before.pending, m.sequence) {
        SendKeepsWindow(before, m);
      }
      assert ms == ms[..n] + [m];
      assert Accepted(SubmitAll(ch, ms)) == Accepted(before) + [m];
    } else {
      assert Accepted(ch) + ms == Accepted(ch);
    }
  }

  /** Nothing is lost, duplicated or reordered, the window holds, and the channel is left unstalled. */
  lemma SendAllConserves(ch: Channel, ms: seq<Message>)
    ensures Accepted(SendAll(ch, ms)) == Accepted(ch) + ms
    ensures WithinWindow(ch) ==> WithinWindow(SendAll(ch, ms))
    ensures NotStalled(SendAll(ch, ms))
  {
    FlushConserves(ch);
    SubmitAllConserves(Flush(ch), ms);
    FlushConserves(SubmitAll(Flush(ch), ms));
  }

  /** An unstalled channel with deferred work has something in flight, and once that is acknowledged a flush sends. */
  lemma StallNeedsInflight(ch: Channel)
    ensures NotStalled(ch) && ch.deferred != [] ==> ch.pending != map[]
    ensures ch.pending == map[] && ch.deferred != [] ==> |Flush(ch).sent| > |ch.sent|
  {
    if ch.pending == map[] && ch.deferred != [] {
      FlushConserves(Send(ch.(deferred := ch.deferred[1..]), ch.deferred[0]));
    }
  }

  // What a channel has in flight after sending.

  function NumbersOf(ms: seq<Message>): set<int> {
    set m | m in ms :: m.sequence
  }

  /** First sends since `was`. */
  function SentSince(was: Channel, ch: Channel): seq<Message>
    requires |was.sent| <= |ch.sent|
  {
    ch.sent[|was.sent|..]
  }

  /**
    The channel took these messages behind its earlier ones: what it has in
    flight now is what it had and what it sent for the first time since.
   */
  ghost predicate Took(was: Channel, ms: seq<Message>, ch: Channel) {
    && Accepted(ch) == Accepted(was) + ms
    && was.sent <= ch.sent
    && ch.pending.Keys == was.pending.Keys + NumbersOf(SentSince(was, ch))
    && forall n :: n in ch.pending ==>
         (n in was.pending && ch.pending[n] == was.pending[n]) || ch.pending[n] in SentSince(was, ch)
  }

  lemma TookNothing(ch: Channel)
    ensures Took(ch, [], ch)
  {
    assert Accepted(ch) + [] == Accepted(ch);
    assert SentSince(ch, ch) == [];
  }

  lemma TookMore(a: Channel, ms: seq<Message>, b: Channel, more: seq<Message>, ch: Channel)
    requires Took(a, ms, b) && Took(b, more, ch)
    ensures Took(a, ms + more, ch)
  {
    hide NumbersOf;
    assert Accepted(a) + ms + more == Accepted(a) + (ms + more);
    assert SentSince(a, ch) == SentSince(a, b) + SentSince(b, ch);
    NumbersAppend(SentSince(a, b), SentSince(b, ch));
  }

  lemma NumbersAppend(a: seq<Message>, b: seq<Message>)
    ensures NumbersOf(a + b) == NumbersOf(a) + NumbersOf(b)
  {
  }

  lemma SendTakes(ch: Channel, m: Message)
    requires ch.deferred == []
    ensures Took(ch, [m], Send(ch, m))
  {
    assert SentSince(ch, Send(ch, m)) == [m];
    assert NumbersOf([m]) == {m.sequence};
  }

  lemma FlushOneTakes(ch: Channel)
    requires ch.deferred != []
    ensures Took(ch, [], Send(ch.(deferred := ch.deferred[1..]), ch.deferred[0]))
  {
    var m := ch.deferred[0];
    var ch1 := Send(ch.(deferred := ch.deferred[1..]), m);
    assert SentSince(ch, ch1) == [m];
    assert NumbersOf([m]) == {m.sequence};
    assert ch.deferred == [m] + ch.deferred[1..];
    assert Accepted(ch1) == Accepted(ch) == Accepted(ch) + [];
  }

  lemma {:induction false} FlushTakes(ch: Channel)
    ensures Took(ch, [], Flush(ch))
    decreases |ch.deferred|
  {
    if ch.deferred != [] && HasRoom(ch.pending, ch.deferred[0].sequence) {
      var ch1 := Send(ch.(deferred := ch.deferred[1..]), ch.deferred[0]);
      var none: seq<Message> := [];
      FlushOneTakes(ch);
      FlushTakes(ch1);
      TookMore(ch, none, ch1, none, Flush(ch));
      assert none + none == none;
    } else {
      TookNothing(ch);
    }
  }

  lemma SubmitTakes(ch: Channel, m: Message)
    ensures Took(ch, [m], Submit(ch, m))
  {
    if ch.deferred != [] || !HasRoom(ch.pending, m.sequence) {
      var ch1 := Submit(ch, m);
      assert Accepted(ch1) == Accepted(ch) + [m];
      assert SentSince(ch, ch1) == [];
    } else {
      SendTakes(ch, m);
    }
  }

  lemma {:induction false} SubmitAllTakes(ch: Channel, ms: seq<Message>)
    ensures Took(ch, ms, SubmitAll(ch, ms))
  {
    hide Took, Submit;
    if ms == [] {
      TookNothing(ch);
    } else {
      var n := |ms| - 1;
      SubmitAllTakes(ch, ms[..n]);
      SubmitTakes(SubmitAll(ch, ms[..n]), ms[n]);
      TookMore(ch, ms[..n], SubmitAll(ch, ms[..n]), [ms[n]], SubmitAll(ch, ms));
      assert ms == ms[..n] + [ms[n]];
    }
  }

  /** Sending retires nothing: what is in flight is what was, and what went out for the first time. */
  lemma SendAllTakes(ch: Channel, ms: seq<Message>)
    ensures Took(ch, ms, SendAll(ch, ms))
  {
    var none: seq<Message> := [];
    var ch1 := Flush(ch);
    var ch2 := SubmitAll(ch1, ms);
    FlushTakes(ch);
    SubmitAllTakes(ch1, ms);
    FlushTakes(ch2);
    TookMore(ch, none, ch1, ms, ch2);
    TookMore(ch, none + ms, ch2, none, SendAll(ch, ms));
    assert none + ms + none == ms;
  }

  lemma SendNothing(ch: Channel)
    requires NotStalled(ch)
    ensures SendAll(ch, []) == ch
  {
  }

  /** Only what was waiting or was offered can have come into flight. */
  ghost predicate Supplied(was: Channel, ms: seq<Message>, ch: Channel) {
    && ch.pending.Keys <= was.pending.Keys + NumbersOf(was.deferred + ms)
    && forall m :: m in ch.deferred ==> m in was.deferred + ms
  }

  lemma TookIsSupplied(was: Channel, ms: seq<Message>, ch: Channel)
    requires Took(was, ms, ch)
    ensures Supplied(was, ms, ch)
  {
    SentWasWaiting(was, ms, ch);
  }

  lemma SentWasWaiting(was: Channel, ms: seq<Message>, ch: Channel)
    requires Took(was, ms, ch)
    ensures SentSince(was, ch) + ch.deferred == was.deferred + ms
    ensures forall m :: m in SentSince(was, ch) || m in ch.deferred ==> m in was.deferred + ms
  {
    var all := was.deferred + ms;
    assert (ch.sent + ch.deferred)[|was.sent|..] == SentSince(was, ch) + ch.deferred;
    assert (was.sent + was.deferred + ms)[|was.sent|..] == all;
    forall m | m in SentSince(was, ch) || m in ch.deferred ensures m in all {
      assert m in SentSince(was, ch) + ch.deferred;
    }
  }

  lemma SuppliedMore(a: Channel, ms: seq<Message>, b: Channel, more: seq<Message>, ch: Channel)
    requires Supplied(a, ms, b) && Supplied(b, more, ch)
    ensures Supplied(a, ms + more, ch)
  {
    assert forall m :: m in b.deferred + more ==> m in a.deferred + (ms + more);
    assert forall m :: m in a.deferred + ms ==> m in a.deferred + (ms + more);
  }

  /** A dropped channel is supplied by anything. */
  lemma IdleIsSupplied(was: Channel, ms: seq<Message>)
    ensures Supplied(was, ms, IDLE)
  {
  }

  // Port moves.

  function Readdress(m: Message, to: Endpoint): Message {
    m.(endpoint := to)
  }

  function ReaddressAll(ms: seq<Message>, to: Endpoint): (r: seq<Message>)
    ensures |r| == |ms| && forall i :: 0 <= i < |ms| ==> r[i] == Readdress(ms[i], to)
  {
    seq(|ms|, i requires 0 <= i < |ms| => Readdress(ms[i], to))
  }

  function ReaddressEach(pending: map<int, Message>, to: Endpoint): map<int, Message> {
    map p | p in pending :: Readdress(pending[p], to)
  }

  /** `_move_session_transport` on the channels of the old and the new address. */
  function Moved(from: Channel, onto: Channel, to: Endpoint): Channel {
    Channel(
      onto.pending + ReaddressEach(from.pending, to),
      if from.deferred != [] then ReaddressAll(from.deferred, to) else onto.deferred,
      onto.sent + ReaddressAll(from.sent, to))
  }

  lemma UnionCount<T>(a: set<T>, b: set<T>)
    ensures |a + b| == |a| + |b| - |a * b|
    ensures |a * b| == 0 <==> a !! b
  {
    assert a + b == a + (b - a) && b == (b - a) + a * b;
    assert |a + (b - a)| == |a| + |b - a| && |(b - a) + a * b| == |b - a| + |a * b|;
    assert a * b == {} <==> a !! b;
  }

  /**
    A move loses nothing exactly when the new address has no in-flight packet of
    the same number and not both addresses have deferred work.
   */
  lemma MoveConservesIff(from: Channel, onto: Channel, to: Endpoint)
    ensures var m := Moved(from, onto, to);
            (&& |m.pending| == |from.pending| + |onto.pending|
             && |m.deferred| == |from.deferred| + |onto.deferred|)
            <==> (from.pending.Keys !! onto.pending.Keys && (from.deferred == [] || onto.deferred == []))
  {
    var m := Moved(from, onto, to);
    assert m.pending.Keys == from.pending.Keys + onto.pending.Keys;
    UnionCount(from.pending.Keys, onto.pending.Keys);
    assert |m.pending| == |m.pending.Keys|;
    assert from.pending.Keys !! onto.pending.Keys <==> from.pending.Keys * onto.pending.Keys == {};
  }

  /**
    Both happen to two channels of one session that took two packets each: of
    two in flight with one number only the moved one is left, and what waited at
    the new address is gone, neither sent nor waiting any more.
   */
  lemma ClashesHappen(a: seq<Message>, b: seq<Message>, to: Endpoint)
    requires |a| == |b| == 2 && a[0].sequence == b[0].sequence
    requires a[1].sequence == b[1].sequence == a[0].sequence + MAX_INFLIGHT
    ensures var m := Moved(SubmitAll(IDLE, a), SubmitAll(IDLE, b), to);
            && m.pending == map[a[0].sequence := Readdress(a[0], to)]
            && m.deferred == [Readdress(a[1], to)] && m.sent == [b[0], Readdress(a[0], to)]
  {
    SubmittedTwo(a);
    SubmittedTwo(b);
    var m := Moved(SubmitAll(IDLE, a), SubmitAll(IDLE, b), to);
    assert m.deferred == [Readdress(a[1], to)] && m.sent == [b[0], Readdress(a[0], to)];
    assert m.pending == map[a[0].sequence := Readdress(a[0], to)];
  }

  lemma SubmittedTwo(ms: seq<Message>)
    requires |ms| == 2 && ms[1].sequence == ms[0].sequence + MAX_INFLIGHT
    ensures SubmitAll(IDLE, ms) == Channel(map[ms[0].sequence := ms[0]], [ms[1]], [ms[0]])
  {
    var none: seq<Message> := [];
    assert ms[..1][..0] == none && ms[..1] == [ms[0]];
    var ch := Send(IDLE, ms[0]);
    assert SubmitAll(IDLE, ms[..1]) == ch;
    assert ch.pending == map[ms[0].sequence := ms[0]] && ms[0].sequence in ch.pending;
    assert none + [ms[1]] == [ms[1]] && none + [ms[0]] == [ms[0]];
  }

  /** Onto an idle address a move only re-addresses: same numbers in flight, same order, still unstalled. */
  lemma MoveOntoIdle(from: Channel, to: Endpoint)
    ensures var m := Moved(from, IDLE, to);
            && Accepted(m) == ReaddressAll(Accepted(from), to)
            && m.pending.Keys == from.pending.Keys
            && (forall p :: p in from.pending ==> m.pending[p] == Readdress(from.pending[p], to))
            && (NotStalled(from) ==> NotStalled(m))
            && (WithinWindow(from) ==> WithinWindow(m))
  {
    var m := Moved(from, IDLE, to);
    assert m.pending.Keys == from.pending.Keys;
    assert |m.pending.Keys| == |m.pending|;
    assert Accepted(m) == ReaddressAll(Accepted(from), to);
    if from.deferred != [] && NotStalled(from) {
      assert m.deferred[0].sequence == from.deferred[0].sequence;
      assert HasRoom(m.pending, m.deferred[0].sequence) <==> HasRoom(from.pending, m.deferred[0].sequence);
    }
  }
}
