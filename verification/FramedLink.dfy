/**
  One client's paced outbound queue (`_FramedLink`, opensnap/udp_server.py): at
  most one datagram per two frames, data only once the previous one's pacing has
  passed, and ACKs riding on the first message that carries none.
 */
module Framing {
  import opened Snap

  const MIN_FRAMES := 2

  /** A queued message and the ACK it carries. */
  datatype Entry = Entry(message: Message, ack: Option<int>)

  /** A datagram sent, with its frame and millisecond. */
  datatype Departure = Departure(message: Message, frame: int, ms: int)

  datatype Link = Link(queue: seq<Entry>, lastSendMs: int, lastSendFrame: int, paceMs: int)

  const NEW_LINK := Link([], 0, -MIN_FRAMES, 0)

  function AckOf(m: Message): Option<int> {
    if m.Response() then Some(m.acknowledge) else None
  }

  function WithAck(m: Message, ack: int): Message {
    m.(typeFlags := WithFlag(m.typeFlags, FLAG_RESPONSE), acknowledge := ack)
  }

  function WithoutAck(m: Message): Message {
    m.(typeFlags := WithoutFlag(m.typeFlags, FLAG_RESPONSE))
  }

  /** A message apart from the ACK it happens to carry. */
  function Content(m: Message): Message {
    WithoutAck(m).(acknowledge := 0)
  }

  function Leaving(e: Entry): Message {
    if e.ack.Some? then WithAck(e.message, e.ack.value) else e.message
  }

  function Added(queue: seq<Entry>, m: Message): seq<Entry> {
    queue + [Entry(m, AckOf(m))]
  }

  /** The ACK goes to the first entry without one, else queues as a message of its own. */
  function AckAdded(queue: seq<Entry>, m: Message): seq<Entry> {
    if queue == [] then Added([], m)
    else if queue[0].ack == None then [queue[0].(ack := Some(m.acknowledge))] + queue[1..]
    else [queue[0]] + AckAdded(queue[1..], m)
  }

  function MessageLength(m: Message): nat {
    16 + |m.payload|
  }

  function Pace(length: nat, lineSpeed: nat): int
    requires lineSpeed > 0
  {
    var ms := (length + lineSpeed + 31) / lineSpeed;
    if ms > 17 then ms else 17
  }

  predicate Due(l: Link, frame: int, nowMs: int) {
    && l.queue != [] && frame >= l.lastSendFrame + MIN_FRAMES
    && (l.queue[0].ack.Some? || nowMs > l.lastSendMs + l.paceMs)
  }

  function Popped(l: Link, lineSpeed: nat, frame: int, nowMs: int): Link
    requires Due(l, frame, nowMs) && lineSpeed > 0
  {
    Link(l.queue[1..], nowMs, frame, Pace(MessageLength(Leaving(l.queue[0])), lineSpeed))
  }

  class FramedLink {
    const lineSpeed: nat
    var queue: seq<Entry>
    var lastSendMs: int
    var lastSendFrame: int
    var paceMs: int

    constructor (lineSpeed: nat)
      requires lineSpeed > 0
      ensures this.lineSpeed == lineSpeed && State() == NEW_LINK
    {
      this.lineSpeed := lineSpeed;
      queue, lastSendMs, lastSendFrame, paceMs := [], 0, -MIN_FRAMES, 0;
    }

    ghost function State(): Link
      reads this
    {
      Link(queue, lastSendMs, lastSendFrame, paceMs)
    }

    method Add(m: Message)
      modifies this`queue
      ensures queue == Added(old(queue), m)
    {
      queue := queue + [Entry(m, AckOf(m))];
    }

    method AddAck(m: Message)
      modifies this`queue
      ensures queue == AckAdded(old(queue), m)
    {
      ghost var first := AckAddedAt(queue, m);
      for i := 0 to |queue|
        invariant queue == old(queue)
        invariant i <= first
      {
        if queue[i].ack == None {
          assert i == first;
          queue := queue[i := queue[i].(ack := Some(m.acknowledge))];
          return;
        }
      }
      Add(m);
    }

    method PopDue(frame: int, nowMs: int) returns (m: Option<Message>)
      requires lineSpeed > 0
      modifies this
      ensures old(Due(State(), frame, nowMs)) ==>
                m == Some(Leaving(old(queue)[0])) && State() == Popped(old(State()), lineSpeed, frame, nowMs)
      ensures !old(Due(State(), frame, nowMs)) ==> m == None && State() == old(State())
    {
      if queue == [] || frame < lastSendFrame + MIN_FRAMES {
        return None;
      }
      var message, ack := queue[0].message, queue[0].ack;
      if ack == None && nowMs <= lastSendMs + paceMs {
        return None;
      }
      queue := queue[1..];
      if ack.Some? {
        message := WithAck(message, ack.value);
      }
      lastSendMs := nowMs;
      lastSendFrame := frame;
      var pace := (MessageLength(message) + lineSpeed + 31) / lineSpeed;
      paceMs := if pace > 17 then pace else 17;
      return Some(message);
    }
  }

  // Runs of one link.

  datatype Op = AddOp(m: Message) | AckOp(m: Message) | PopOp(frame: int, nowMs: int)

  /** A link with its history: what it sent, what took a queue place, and the ACKs handed in. */
  datatype History = History(link: Link, wire: seq<Departure>, entered: seq<Message>, acks: multiset<int>)

  const NEW_HISTORY := History(NEW_LINK, [], [], multiset{})

  function Performed(h: History, lineSpeed: nat, op: Op): History
    requires lineSpeed > 0
  {
    match op
    case AddOp(m) =>
      h.(link := h.link.(queue := Added(h.link.queue, m)), entered := h.entered + [m],
         acks := h.acks + Acks(AckOf(m)))
    case AckOp(m) =>
      h.(link := h.link.(queue := AckAdded(h.link.queue, m)),
         entered := h.entered + (if AllAcked(h.link.queue) then [m] else []),
         acks := h.acks + multiset{m.acknowledge})
    case PopOp(frame, nowMs) =>
      if Due(h.link, frame, nowMs) then
        h.(link := Popped(h.link, lineSpeed, frame, nowMs),
           wire := h.wire + [Departure(Leaving(h.link.queue[0]), frame, nowMs)])
      else h
  }

  function Perform(lineSpeed: nat, ops: seq<Op>): History
    requires lineSpeed > 0
  {
    if ops == [] then NEW_HISTORY else Performed(Perform(lineSpeed, ops[..|ops| - 1]), lineSpeed, ops[|ops| - 1])
  }

  function Acks(a: Option<int>): multiset<int> {
    if a.Some? then multiset{a.value} else multiset{}
  }

  predicate AllAcked(queue: seq<Entry>) {
    forall i :: 0 <= i < |queue| ==> queue[i].ack.Some?
  }

  function QueueAcks(queue: seq<Entry>): multiset<int> {
    if queue == [] then multiset{} else Acks(queue[0].ack) + QueueAcks(queue[1..])
  }

  function WireAcks(wire: seq<Departure>): multiset<int> {
    if wire == [] then multiset{} else WireAcks(wire[..|wire| - 1]) + Acks(AckOf(wire[|wire| - 1].message))
  }

  function WireContent(wire: seq<Departure>): (r: seq<Message>)
    ensures |r| == |wire| && forall i :: 0 <= i < |wire| ==> r[i] == Content(wire[i].message)
  {
    seq(|wire|, i requires 0 <= i < |wire| => Content(wire[i].message))
  }

  function QueueContent(queue: seq<Entry>): (r: seq<Message>)
    ensures |r| == |queue| && forall i :: 0 <= i < |queue| ==> r[i] == Content(queue[i].message)
  {
    seq(|queue|, i requires 0 <= i < |queue| => Content(queue[i].message))
  }

  function Contents(ms: seq<Message>): (r: seq<Message>)
    ensures |r| == |ms| && forall i :: 0 <= i < |ms| ==> r[i] == Content(ms[i])
  {
    seq(|ms|, i requires 0 <= i < |ms| => Content(ms[i]))
  }

  /** An entry without an ACK holds a message without one. */
  predicate Marked(queue: seq<Entry>) {
    forall i :: 0 <= i < |queue| && queue[i].ack == None ==> !queue[i].message.Response()
  }

  /**
    Order and conservation: nothing queued is lost or overtaken, and each ACK handed in
    is on one datagram or one entry.
   */
  ghost predicate Conserved(h: History) {
    && WireContent(h.wire) + QueueContent(h.link.queue) == Contents(h.entered)
    && WireAcks(h.wire) + QueueAcks(h.link.queue) == h.acks
  }

  lemma ContentIgnoresAck(m: Message, ack: int)
    ensures Content(WithAck(m, ack)) == Content(m)
    ensures AckOf(WithAck(m, ack)) == Some(ack)
    ensures AckOf(WithoutAck(m)) == None && WithoutAck(m).Reliable() == m.Reliable()
            && Content(WithoutAck(m)) == Content(m)
    ensures WithAck(m, ack).Reliable() == m.Reliable()
  {
    ResponseBitIsSeparate(m.typeFlags);
  }

  lemma LeavingKeepsContent(e: Entry)
    requires e.ack == None ==> !e.message.Response()
    ensures Content(Leaving(e)) == Content(e.message) && AckOf(Leaving(e)) == e.ack
    ensures Leaving(e).Reliable() == e.message.Reliable() && Leaving(e).sequence == e.message.sequence
  {
    if e.ack.Some? { ContentIgnoresAck(e.message, e.ack.value); }
  }

  lemma {:induction false} QueueAcksEndsWith(queue: seq<Entry>, e: Entry)
    ensures QueueAcks(queue + [e]) == QueueAcks(queue) + Acks(e.ack)
  {
    if queue == [] {
      assert queue + [e] == [e];
    } else {
      QueueAcksEndsWith(queue[1..], e);
      assert (queue + [e])[1..] == queue[1..] + [e];
    }
  }

  lemma QueueAcksStartsWith(e: Entry, queue: seq<Entry>)
    ensures QueueAcks([e] + queue) == Acks(e.ack) + QueueAcks(queue)
  {
    assert ([e] + queue)[1..] == queue;
  }

  /** Where an ACK goes: the first entry that carries none, or a new one at the end. */
  lemma {:induction false} AckAddedAt(queue: seq<Entry>, m: Message) returns (i: nat)
    ensures i <= |queue| && AllAcked(queue[..i]) && (i == |queue| <==> AllAcked(queue))
    ensures i < |queue| ==>
              queue[i].ack == None && AckAdded(queue, m) == queue[i := queue[i].(ack := Some(m.acknowledge))]
    ensures i == |queue| ==> AckAdded(queue, m) == Added(queue, m)
  {
    if queue == [] || queue[0].ack == None {
      i := 0;
    } else {
      var j := AckAddedAt(queue[1..], m);
      i := j + 1;
      assert queue == [queue[0]] + queue[1..];
      assert queue[..i] == [queue[0]] + queue[1..][..j];
      assert AllAcked(queue) <==> AllAcked(queue[1..]);
    }
  }

  lemma {:induction false} AckAddedAcks(queue: seq<Entry>, m: Message)
    requires AckOf(m) == Some(m.acknowledge)
    ensures QueueAcks(AckAdded(queue, m)) == QueueAcks(queue) + multiset{m.acknowledge}
  {
    if queue == [] {
      QueueAcksEndsWith([], Entry(m, AckOf(m)));
    } else if queue[0].ack == None {
      QueueAcksStartsWith(queue[0].(ack := Some(m.acknowledge)), queue[1..]);
    } else {
      AckAddedAcks(queue[1..], m);
      QueueAcksStartsWith(queue[0], AckAdded(queue[1..], m));
    }
  }

  lemma AckAddedContent(queue: seq<Entry>, m: Message)
    requires AckOf(m) == Some(m.acknowledge)
    ensures QueueContent(AckAdded(queue, m)) == QueueContent(queue) + if AllAcked(queue) then [Content(m)] else []
    ensures Marked(queue) ==> Marked(AckAdded(queue, m))
  {
    var i := AckAddedAt(queue, m);
    if i == |queue| {
      assert QueueContent(Added(queue, m)) == QueueContent(queue) + [Content(m)];
    } else {
      assert QueueContent(AckAdded(queue, m)) == QueueContent(queue);
    }
  }

  lemma JoinSequences<T>(wire: seq<T>, queue: seq<T>, more: seq<T>)
    ensures wire + (queue + more) == wire + queue + more
  {
  }

  lemma JoinAcks(wire: multiset<int>, queue: multiset<int>, more: multiset<int>)
    ensures wire + (queue + more) == wire + queue + more
  {
  }

  lemma ContentsAppend(ms: seq<Message>, more: seq<Message>)
    ensures Contents(ms + more) == Contents(ms) + Contents(more)
  {
  }

  lemma EnteringConserves(h: History, queue: seq<Entry>, more: seq<Message>, ack: multiset<int>)
    requires Conserved(h)
    requires QueueAcks(queue) == QueueAcks(h.link.queue) + ack
    requires QueueContent(queue) == QueueContent(h.link.queue) + Contents(more)
    ensures WireContent(h.wire) + QueueContent(queue) == Contents(h.entered + more)
    ensures WireAcks(h.wire) + QueueAcks(queue) == h.acks + ack
  {
    JoinSequences(WireContent(h.wire), QueueContent(h.link.queue), Contents(more));
    JoinAcks(WireAcks(h.wire), QueueAcks(h.link.queue), ack);
    ContentsAppend(h.entered, more);
  }

  lemma AddConserves(h: History, lineSpeed: nat, m: Message)
    requires lineSpeed > 0 && Conserved(h) && Marked(h.link.queue)
    ensures Conserved(Performed(h, lineSpeed, AddOp(m))) && Marked(Performed(h, lineSpeed, AddOp(m)).link.queue)
  {
    var queue := h.link.queue;
    QueueAcksEndsWith(queue, Entry(m, AckOf(m)));
    assert QueueContent(Added(queue, m)) == QueueContent(queue) + Contents([m]);
    EnteringConserves(h, Added(queue, m), [m], Acks(AckOf(m)));
  }

  lemma AckConserves(h: History, lineSpeed: nat, m: Message)
    requires lineSpeed > 0 && Conserved(h) && Marked(h.link.queue) && m.Response()
    ensures Conserved(Performed(h, lineSpeed, AckOp(m))) && Marked(Performed(h, lineSpeed, AckOp(m)).link.queue)
  {
    AckAddedAcks(h.link.queue, m);
    AckAddedContent(h.link.queue, m);
    var more := if AllAcked(h.link.queue) then [m] else [];
    assert Contents(more) == if AllAcked(h.link.queue) then [Content(m)] else [];
    EnteringConserves(h, AckAdded(h.link.queue, m), more, multiset{m.acknowledge});
  }

  lemma PopMoves(wire: seq<Departure>, queue: seq<Entry>, d: Departure)
    requires queue != [] && Marked(queue) && d.message == Leaving(queue[0])
    ensures WireContent(wire + [d]) == WireContent(wire) + [Content(queue[0].message)]
    ensures QueueContent(queue) == [Content(queue[0].message)] + QueueContent(queue[1..])
    ensures WireAcks(wire + [d]) == WireAcks(wire) + Acks(queue[0].ack)
    ensures QueueAcks(queue) == Acks(queue[0].ack) + QueueAcks(queue[1..])
  {
    LeavingKeepsContent(queue[0]);
    assert (wire + [d])[..|wire|] == wire;
  }

  lemma PopConserves(h: History, lineSpeed: nat, frame: int, nowMs: int)
    requires lineSpeed > 0 && Conserved(h) && Marked(h.link.queue) && Due(h.link, frame, nowMs)
    ensures var h' := Performed(h, lineSpeed, PopOp(frame, nowMs)); Conserved(h') && Marked(h'.link.queue)
  {
    var queue := h.link.queue;
    PopMoves(h.wire, queue, Departure(Leaving(queue[0]), frame, nowMs));
    JoinSequences(WireContent(h.wire), [Content(queue[0].message)], QueueContent(queue[1..]));
    JoinAcks(WireAcks(h.wire), Acks(queue[0].ack), QueueAcks(queue[1..]));
  }

  /** Over every run of a link, data leaves in the order it was added and every ACK handed in is accounted for once. */
  lemma {:induction false} LinkConserves(lineSpeed: nat, ops: seq<Op>)
    requires lineSpeed > 0 && forall op :: op in ops && op.AckOp? ==> op.m.Response()
    ensures Conserved(Perform(lineSpeed, ops)) && Marked(Perform(lineSpeed, ops).link.queue)
  {
    if ops != [] {
      LinkConserves(lineSpeed, ops[..|ops| - 1]);
      var h := Perform(lineSpeed, ops[..|ops| - 1]);
      match ops[|ops| - 1]
      case AddOp(m) => AddConserves(h, lineSpeed, m);
      case AckOp(m) => AckConserves(h, lineSpeed, m);
      case PopOp(frame, nowMs) =>
        if Due(h.link, frame, nowMs) { PopConserves(h, lineSpeed, frame, nowMs); }
    }
  }

  // Pacing.

  predicate AtLast(l: Link, d: Departure, lineSpeed: nat)
    requires lineSpeed > 0
  {
    l.lastSendFrame == d.frame && l.lastSendMs == d.ms && l.paceMs == Pace(MessageLength(d.message), lineSpeed)
  }

  predicate Apart(d: Departure, next: Departure, lineSpeed: nat)
    requires lineSpeed > 0
  {
    && next.frame >= d.frame + MIN_FRAMES
    && (!next.message.Response() ==> next.ms > d.ms + Pace(MessageLength(d.message), lineSpeed))
  }

  /** What `PopDue` leaves between neighbours on the wire. */
  ghost predicate Paced(h: History, lineSpeed: nat)
    requires lineSpeed > 0
  {
    && (h.wire != [] ==> AtLast(h.link, h.wire[|h.wire| - 1], lineSpeed))
    && (forall i :: 0 < i < |h.wire| ==> Apart(h.wire[i - 1], h.wire[i], lineSpeed))
  }

  lemma PopKeepsPace(h: History, lineSpeed: nat, frame: int, nowMs: int)
    requires lineSpeed > 0 && Paced(h, lineSpeed) && Due(h.link, frame, nowMs)
    ensures Paced(Performed(h, lineSpeed, PopOp(frame, nowMs)), lineSpeed)
  {
    var e := h.link.queue[0];
    if e.ack.Some? { ContentIgnoresAck(e.message, e.ack.value); }
  }

  lemma {:induction false} LinkIsPaced(lineSpeed: nat, ops: seq<Op>)
    requires lineSpeed > 0
    ensures Paced(Perform(lineSpeed, ops), lineSpeed)
  {
    if ops != [] {
      var n := |ops| - 1;
      LinkIsPaced(lineSpeed, ops[..n]);
      var h := Perform(lineSpeed, ops[..n]);
      if ops[n].PopOp? && Due(h.link, ops[n].frame, ops[n].nowMs) {
        PopKeepsPace(h, lineSpeed, ops[n].frame, ops[n].nowMs);
      }
    }
  }

  lemma {:induction false} NothingSentYet(lineSpeed: nat, ops: seq<Op>)
    requires lineSpeed > 0 && Perform(lineSpeed, ops).wire == []
    ensures var link := Perform(lineSpeed, ops).link;
            link.lastSendFrame == -2 && link.lastSendMs == 0 && link.paceMs == 0
  {
    if ops != [] {
      var h := Perform(lineSpeed, ops[..|ops| - 1]);
      NothingSentYet(lineSpeed, ops[..|ops| - 1]);
    }
  }

  /**
    Exactly when the first queued message leaves: two frames after the last
    datagram, and either with an ACK on it or once the time the line needs for the
    last datagram, at least 17 ms, has passed. It leaves with its ACK, and nothing
    else changes.
   */
  lemma LeavesIff(lineSpeed: nat, ops: seq<Op>, h: History, frame: int, nowMs: int)
    requires lineSpeed > 0 && h == Perform(lineSpeed, ops)
    ensures var h' := Performed(h, lineSpeed, PopOp(frame, nowMs));
            var queue, n := h.link.queue, |h.wire|;
            if queue != []
               && (if n == 0 then frame >= 0 else frame >= h.wire[n - 1].frame + 2)
               && (queue[0].ack.Some?
                   || (if n == 0 then nowMs > 0
                       else nowMs > h.wire[n - 1].ms + 17
                            && nowMs > h.wire[n - 1].ms
                                 + (16 + |h.wire[n - 1].message.payload| + lineSpeed + 31) / lineSpeed))
            then
              && |h'.wire| == n + 1 && h'.wire[..n] == h.wire
              && h'.wire[n].frame == frame && h'.wire[n].ms == nowMs
              && Content(h'.wire[n].message) == Content(queue[0].message)
              && (queue[0].ack.Some? ==> AckOf(h'.wire[n].message) == queue[0].ack)
              && (queue[0].ack.None? ==> h'.wire[n].message == queue[0].message)
              && h'.link.queue == queue[1..] && h'.entered == h.entered && h'.acks == h.acks
            else h' == h
  {
    LinkIsPaced(lineSpeed, ops);
    if h.wire == [] { NothingSentYet(lineSpeed, ops); }
    if h.link.queue != [] && h.link.queue[0].ack.Some? {
      ContentIgnoresAck(h.link.queue[0].message, h.link.queue[0].ack.value);
    }
  }

  /** The load of the datagrams `first..last - 1`. */
  function Load(wire: seq<Departure>, first: nat, last: nat): nat
    requires first <= last <= |wire|
    decreases last
  {
    if first == last then 0 else Load(wire, first, last - 1) + MessageLength(wire[last - 1].message) + 31
  }

  lemma PaceCoversLoad(length: nat, lineSpeed: nat)
    requires lineSpeed > 0
    ensures lineSpeed * Pace(length, lineSpeed) > length + 31
  {
    var q, r := (length + lineSpeed + 31) / lineSpeed, (length + lineSpeed + 31) % lineSpeed;
    assert length + lineSpeed + 31 == lineSpeed * q + r && r < lineSpeed;
    assert lineSpeed * Pace(length, lineSpeed) >= lineSpeed * q;
  }

  /**
    The pacing bound: neighbours are two frames apart, and over a stretch whose
    later sends carry no ACK the load of all but the last is strictly below what
    the line carries in the time that passed.
   */
  lemma {:induction false} PacingBound(lineSpeed: nat, ops: seq<Op>, wire: seq<Departure>, first: nat, last: nat)
    requires lineSpeed > 0 && wire == Perform(lineSpeed, ops).wire
    requires first < last < |wire| && forall i :: first < i <= last ==> !wire[i].message.Response()
    ensures wire[last].frame >= wire[first].frame + MIN_FRAMES * (last - first)
    ensures Load(wire, first, last) < lineSpeed * (wire[last].ms - wire[first].ms)
    decreases last
  {
    LinkIsPaced(lineSpeed, ops);
    OneSend(wire[last - 1], wire[last], lineSpeed);
    if first < last - 1 {
      PacingBound(lineSpeed, ops, wire, first, last - 1);
      Stretch(lineSpeed, wire[first].ms, wire[last - 1].ms, wire[last].ms);
    }
  }

  lemma OneSend(d: Departure, next: Departure, lineSpeed: nat)
    requires lineSpeed > 0 && Apart(d, next, lineSpeed) && !next.message.Response()
    ensures MessageLength(d.message) + 31 < lineSpeed * (next.ms - d.ms)
  {
    PaceCoversLoad(MessageLength(d.message), lineSpeed);
    Scale(lineSpeed, Pace(MessageLength(d.message), lineSpeed), next.ms - d.ms);
  }

  lemma Scale(k: nat, a: int, b: int)
    requires a <= b
    ensures k * a <= k * b
  {
  }

  lemma Stretch(k: nat, a: int, b: int, c: int)
    ensures k * (b - a) + k * (c - b) == k * (c - a)
  {
  }
}
