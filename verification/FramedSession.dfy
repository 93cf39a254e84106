/**
  The reliable packets of one session whose game sends through a framed link
  (opensnap/udp_server.py, `_send_encoded_message`, `_retransmit_due` and
  `_pump_framed_links`): tracked from when they are queued, resent through the
  same queue, and looked up by number when a datagram leaves.
 */
module FramedSending {
  import opened Snap
  import opened Framing

  datatype Tracked = Tracked(message: Message, sent: bool, awaiting: bool, attempts: nat)

  datatype Framed = Framed(pending: map<nat, Tracked>, link: Link)

  function Submitted(f: Framed, m: Message): Framed {
    if m.Reliable() then
      Framed(f.pending[m.sequence := Tracked(m, false, true, 0)], f.link.(queue := Added(f.link.queue, m)))
    else if m.command == CMD_ACK && m.payload == [] then
      f.(link := f.link.(queue := AckAdded(f.link.queue, m)))
    else
      f.(link := f.link.(queue := Added(f.link.queue, m)))
  }

  function Retired(f: Framed, n: nat): Framed {
    f.(pending := f.pending - {n})
  }

  predicate Resendable(f: Framed, n: nat) {
    n in f.pending && !f.pending[n].awaiting
  }

  function Resent(f: Framed, n: nat): Framed
    requires Resendable(f, n)
  {
    Framed(f.pending[n := f.pending[n].(awaiting := true)],
           f.link.(queue := Added(f.link.queue, WithoutAck(f.pending[n].message))))
  }

  function AfterSend(t: Tracked, m: Message): Tracked {
    Tracked(m, true, false, if t.sent then t.attempts + 1 else t.attempts)
  }

  /** Any message that leaves replaces what is pending under its number, reliable or not. */
  function Pumped(f: Framed, lineSpeed: nat, frame: int, nowMs: int): Framed
    requires lineSpeed > 0
  {
    if !Due(f.link, frame, nowMs) then f
    else
      var m := Leaving(f.link.queue[0]);
      Framed(if m.sequence in f.pending then f.pending[m.sequence := AfterSend(f.pending[m.sequence], m)]
          else f.pending,
             Popped(f.link, lineSpeed, frame, nowMs))
  }

  /** The sender's part of one framed session. */
  class FramedSession {
    var pending: map<nat, Tracked>
    const link: FramedLink

    constructor (lineSpeed: nat)
      requires lineSpeed > 0
      ensures State() == Framed(map[], NEW_LINK) && link.lineSpeed == lineSpeed && fresh(link)
    {
      pending := map[];
      link := new FramedLink(lineSpeed);
    }

    ghost function State(): Framed
      reads this, link
    {
      Framed(pending, link.State())
    }

    method SendEncodedMessage(m: Message)
      modifies this, link
      ensures State() == Submitted(old(State()), m)
    {
      if m.Reliable() {
        pending := pending[m.sequence := Tracked(m, false, false, 0)];
        pending := pending[m.sequence := pending[m.sequence].(awaiting := true)];
        link.Add(m);
      } else if m.command == CMD_ACK && m.payload == [] {
        link.AddAck(m);
      } else {
        link.Add(m);
      }
    }

    method ClearReliablePending(n: nat)
      modifies this
      ensures State() == Retired(old(State()), n)
    {
      pending := pending - {n};
    }

    method ResendDue(n: nat)
      modifies this, link
      ensures State() == if Resendable(old(State()), n) then Resent(old(State()), n) else old(State())
    {
      if n in pending && !pending[n].awaiting {
        link.Add(WithoutAck(pending[n].message));
        pending := pending[n := pending[n].(awaiting := true)];
      }
    }

    method Pump(frame: int, nowMs: int) returns (sent: Option<Message>)
      requires link.lineSpeed > 0
      modifies this, link
      ensures State() == Pumped(old(State()), link.lineSpeed, frame, nowMs)
      ensures sent == if Due(old(State().link), frame, nowMs) then Some(Leaving(old(link.queue)[0])) else None
    {
      sent := link.PopDue(frame, nowMs);
      if sent.Some? {
        var m := sent.value;
        if m.sequence in pending {
          pending := pending[m.sequence := AfterSend(pending[m.sequence], m)];
        }
      }
    }
  }

  // Runs of one framed session.

  datatype Op = Submit(m: Message) | AckArrives(n: nat) | Resend(n: nat) | Pump(frame: int, nowMs: int)

  /** `given` holds every reliable message submitted so far, by number. */
  datatype Run = Run(f: Framed, given: map<nat, Message>)

  const NEW_RUN := Run(Framed(map[], NEW_LINK), map[])

  /** Reliable numbers are never reused; a resend is for a packet that has left the queue. */
  predicate Possible(r: Run, op: Op) {
    match op
    case Submit(m) => m.Reliable() ==> m.sequence !in r.given
    case Resend(n) => Resendable(r.f, n)
    case _ => true
  }

  function Performed(r: Run, lineSpeed: nat, op: Op): Run
    requires lineSpeed > 0 && Possible(r, op)
  {
    match op
    case Submit(m) => Run(Submitted(r.f, m), if m.Reliable() then r.given[m.sequence := m] else r.given)
    case AckArrives(n) => r.(f := Retired(r.f, n))
    case Resend(n) => r.(f := Resent(r.f, n))
    case Pump(frame, nowMs) => r.(f := Pumped(r.f, lineSpeed, frame, nowMs))
  }

  ghost predicate Reaches(a: Run, lineSpeed: nat, ops: seq<Op>, b: Run)
    requires lineSpeed > 0
    decreases |ops|
  {
    if ops == [] then a == b
    else Possible(a, ops[0]) && Reaches(Performed(a, lineSpeed, ops[0]), lineSpeed, ops[1..], b)
  }

  predicate CopyOf(e: Entry, n: nat) {
    e.message.Reliable() && e.message.sequence == n
  }

  /** How many queue entries are reliable packet `n`. */
  function Copies(queue: seq<Entry>, n: nat): nat {
    if queue == [] then 0 else (if CopyOf(queue[0], n) then 1 else 0) + Copies(queue[1..], n)
  }

  lemma {:induction false} CopiesAdded(queue: seq<Entry>, e: Entry, n: nat)
    ensures Copies(queue + [e], n) == Copies(queue, n) + if CopyOf(e, n) then 1 else 0
  {
    if queue == [] {
      assert queue + [e] == [e];
    } else {
      CopiesAdded(queue[1..], e, n);
      assert (queue + [e])[1..] == queue[1..] + [e];
    }
  }

  lemma {:induction false} CopiesAckAdded(queue: seq<Entry>, m: Message, n: nat)
    requires !m.Reliable()
    ensures Copies(AckAdded(queue, m), n) == Copies(queue, n)
  {
    if queue != [] && queue[0].ack.Some? {
      CopiesAckAdded(queue[1..], m, n);
      assert AckAdded(queue, m)[1..] == AckAdded(queue[1..], m);
    }
  }

  lemma {:induction false} NoCopies(queue: seq<Entry>, n: nat)
    requires forall i :: 0 <= i < |queue| ==> !CopyOf(queue[i], n)
    ensures Copies(queue, n) == 0
  {
    if queue != [] { NoCopies(queue[1..], n); }
  }

  /** `m` is the reliable message submitted under `n`, give or take the ACK it carries. */
  predicate Genuine(m: Message, n: nat, given: map<nat, Message>) {
    m.Reliable() && m.sequence == n && n in given && Content(m) == Content(given[n])
  }

  /** What every queued reliable message and every pending number is. */
  ghost predicate Traced(r: Run) {
    && (forall i :: 0 <= i < |r.f.link.queue| && r.f.link.queue[i].message.Reliable() ==>
          Genuine(r.f.link.queue[i].message, r.f.link.queue[i].message.sequence, r.given))
    && (forall n :: n in r.f.pending ==> n in r.given && r.f.pending[n].message.sequence == n)
    && (forall n :: n in r.f.pending && r.f.pending[n].message.Reliable() ==>
          Genuine(r.f.pending[n].message, n, r.given))
  }

  predicate SingleAt(r: Run, n: nat) {
    && Copies(r.f.link.queue, n) <= 1
    && (n in r.f.pending && Copies(r.f.link.queue, n) == 1 ==>
          r.f.pending[n].awaiting || !r.f.pending[n].message.Reliable())
  }

  /** A packet has at most one copy queued, and a pending one's own copy is known to be. */
  ghost predicate Single(r: Run) {
    forall n :: SingleAt(r, n)
  }

  lemma LeavingIsGenuine(e: Entry, n: nat, given: map<nat, Message>)
    requires Genuine(e.message, n, given)
    ensures Genuine(Leaving(e), n, given)
  {
    if e.ack.Some? { ContentIgnoresAck(e.message, e.ack.value); }
  }

  lemma LeavingKeepsNumber(e: Entry)
    ensures Leaving(e).Reliable() == e.message.Reliable() && Leaving(e).sequence == e.message.sequence
  {
    if e.ack.Some? { ContentIgnoresAck(e.message, e.ack.value); }
  }

  lemma SubmitKeepsTraced(r: Run, lineSpeed: nat, m: Message)
    requires lineSpeed > 0 && Traced(r) && Possible(r, Submit(m))
    ensures Traced(Performed(r, lineSpeed, Submit(m)))
  {
    var queue, queue' := r.f.link.queue, Submitted(r.f, m).link.queue;
    if !m.Reliable() && m.command == CMD_ACK && m.payload == [] {
      var i := AckAddedAt(queue, m);
      assert forall k :: 0 <= k < |queue'| && queue'[k].message.Reliable() ==>
          k < |queue| && queue'[k].message == queue[k].message;
    }
  }

  lemma SubmitKeepsSingle(r: Run, lineSpeed: nat, m: Message, n: nat)
    requires lineSpeed > 0 && Traced(r) && SingleAt(r, n) && Possible(r, Submit(m))
    ensures SingleAt(Performed(r, lineSpeed, Submit(m)), n)
  {
    var queue := r.f.link.queue;
    if !m.Reliable() && m.command == CMD_ACK && m.payload == [] {
      CopiesAckAdded(queue, m, n);
    } else {
      CopiesAdded(queue, Entry(m, AckOf(m)), n);
      if m.Reliable() && m.sequence == n { NoCopies(queue, n); }
    }
  }

  lemma ResendKeeps(r: Run, lineSpeed: nat, k: nat)
    requires lineSpeed > 0 && Traced(r) && Possible(r, Resend(k))
    ensures Traced(Performed(r, lineSpeed, Resend(k)))
    ensures forall n :: SingleAt(r, n) ==> SingleAt(Performed(r, lineSpeed, Resend(k)), n)
  {
    var m := r.f.pending[k].message;
    ContentIgnoresAck(m, 0);
    forall n | SingleAt(r, n) ensures SingleAt(Performed(r, lineSpeed, Resend(k)), n) {
      CopiesAdded(r.f.link.queue, Entry(WithoutAck(m), AckOf(WithoutAck(m))), n);
    }
  }

  lemma PumpKeeps(r: Run, lineSpeed: nat, frame: int, nowMs: int)
    requires lineSpeed > 0 && Traced(r) && Due(r.f.link, frame, nowMs)
    ensures Traced(Performed(r, lineSpeed, Pump(frame, nowMs)))
    ensures forall n :: SingleAt(r, n) ==> SingleAt(Performed(r, lineSpeed, Pump(frame, nowMs)), n)
  {
    var e := r.f.link.queue[0];
    LeavingKeepsNumber(e);
    if e.message.Reliable() { LeavingIsGenuine(e, e.message.sequence, r.given); }
  }

  lemma {:induction false} StepKeeps(r: Run, lineSpeed: nat, op: Op)
    requires lineSpeed > 0 && Possible(r, op) && Traced(r) && Single(r)
    ensures Traced(Performed(r, lineSpeed, op)) && Single(Performed(r, lineSpeed, op))
  {
    match op
    case Submit(m) =>
      SubmitKeepsTraced(r, lineSpeed, m);
      forall n ensures SingleAt(Performed(r, lineSpeed, op), n) { SubmitKeepsSingle(r, lineSpeed, m, n); }
    case AckArrives(k) =>
      forall n ensures SingleAt(Performed(r, lineSpeed, op), n) { assert SingleAt(r, n); }
    case Resend(k) =>
      ResendKeeps(r, lineSpeed, k);
      forall n ensures SingleAt(Performed(r, lineSpeed, op), n) { assert SingleAt(r, n); }
    case Pump(frame, nowMs) =>
      if Due(r.f.link, frame, nowMs) {
        PumpKeeps(r, lineSpeed, frame, nowMs);
        forall n ensures SingleAt(Performed(r, lineSpeed, op), n) { assert SingleAt(r, n); }
      }
  }

  /** In every run no reliable packet, pending or not, has two copies queued. */
  lemma {:induction false} NeverTwoCopies(r: Run, lineSpeed: nat, ops: seq<Op>, r': Run)
    requires lineSpeed > 0 && Traced(r) && Single(r) && Reaches(r, lineSpeed, ops, r')
    ensures Traced(r') && Single(r')
    ensures forall n :: Copies(r'.f.link.queue, n) <= 1
    decreases |ops|
  {
    if ops == [] {
      forall n ensures Copies(r'.f.link.queue, n) <= 1 { assert SingleAt(r', n); }
    } else {
      StepKeeps(r, lineSpeed, ops[0]);
      NeverTwoCopies(Performed(r, lineSpeed, ops[0]), lineSpeed, ops[1..], r');
    }
  }

  /**
    An ACK ends the wait for its number alone; a reliable message is awaited from
    when it is queued; a resend queues what was submitted once more, without an ACK.
   */
  lemma WhatEachDoes(r: Run, lineSpeed: nat, n: nat, m: Message)
    requires lineSpeed > 0 && Traced(r)
    ensures var f := Performed(r, lineSpeed, AckArrives(n)).f;
            && f.link == r.f.link && f.pending.Keys == r.f.pending.Keys - {n}
            && forall k :: k in f.pending ==> f.pending[k] == r.f.pending[k]
    ensures Possible(r, Submit(m)) && m.Reliable() ==>
              var f := Performed(r, lineSpeed, Submit(m)).f;
              && f.link.queue == r.f.link.queue + [Entry(m, if m.Response() then Some(m.acknowledge) else None)]
              && m.sequence in f.pending && f.pending[m.sequence].message == m && f.pending[m.sequence].awaiting
    ensures Possible(r, Resend(n)) && r.f.pending[n].message.Reliable() ==>
              var f := Performed(r, lineSpeed, Resend(n)).f; var last := |r.f.link.queue|;
              && |f.link.queue| == last + 1 && f.link.queue[..last] == r.f.link.queue
              && f.link.queue[last].ack == None && !f.link.queue[last].message.Response()
              && n in r.given && Content(f.link.queue[last].message) == Content(r.given[n])
              && n in f.pending && f.pending[n].awaiting
  {
    if n in r.f.pending { ContentIgnoresAck(r.f.pending[n].message, 0); }
  }

  // The lookup by number alone.

  /** What is pending is what was submitted, and waits in the queue exactly when it is marked so. */
  ghost predicate Sound(r: Run) {
    forall n :: n in r.f.pending ==>
      && Genuine(r.f.pending[n].message, n, r.given)
      && (r.f.pending[n].awaiting <==> Copies(r.f.link.queue, n) == 1)
  }

  /** An unreliable message that is about to leave has a pending packet's number. */
  predicate Clash(f: Framed, frame: int, nowMs: int) {
    && Due(f.link, frame, nowMs) && !f.link.queue[0].message.Reliable()
    && f.link.queue[0].message.sequence in f.pending
  }

  /** A frame keeps every pending packet what it was exactly when no unreliable message leaves under its number. */
  lemma PumpIsSoundIff(r: Run, lineSpeed: nat, frame: int, nowMs: int)
    requires lineSpeed > 0 && Traced(r) && Single(r) && Sound(r)
    ensures Sound(Performed(r, lineSpeed, Pump(frame, nowMs))) <==> !Clash(r.f, frame, nowMs)
  {
    if Due(r.f.link, frame, nowMs) {
      var e := r.f.link.queue[0];
      var r' := Performed(r, lineSpeed, Pump(frame, nowMs));
      LeavingKeepsNumber(e);
      if Clash(r.f, frame, nowMs) {
        assert !Genuine(r'.f.pending[e.message.sequence].message, e.message.sequence, r'.given);
      } else {
        if e.message.Reliable() { LeavingIsGenuine(e, e.message.sequence, r.given); }
        forall n | n in r'.f.pending
          ensures Genuine(r'.f.pending[n].message, n, r'.given)
          ensures r'.f.pending[n].awaiting <==> Copies(r'.f.link.queue, n) == 1
        {
          assert SingleAt(r, n);
        }
      }
    }
  }

  lemma StepKeepsSound(r: Run, lineSpeed: nat, op: Op)
    requires lineSpeed > 0 && Possible(r, op) && Traced(r) && Single(r) && Sound(r)
    requires op.Pump? ==> !Clash(r.f, op.frame, op.nowMs)
    ensures Sound(Performed(r, lineSpeed, op))
  {
    var r' := Performed(r, lineSpeed, op);
    var queue := r.f.link.queue;
    match op
    case Submit(m) =>
      forall n | n in r'.f.pending
        ensures Genuine(r'.f.pending[n].message, n, r'.given)
        ensures r'.f.pending[n].awaiting <==> Copies(r'.f.link.queue, n) == 1
      {
        if !m.Reliable() && m.command == CMD_ACK && m.payload == [] {
          CopiesAckAdded(queue, m, n);
        } else {
          CopiesAdded(queue, Entry(m, AckOf(m)), n);
          if m.Reliable() && m.sequence == n { NoCopies(queue, n); }
        }
      }
    case AckArrives(k) =>
    case Resend(k) =>
      var m := r.f.pending[k].message;
      ContentIgnoresAck(m, 0);
      forall n | n in r'.f.pending
        ensures Genuine(r'.f.pending[n].message, n, r'.given)
        ensures r'.f.pending[n].awaiting <==> Copies(r'.f.link.queue, n) == 1
      {
        assert SingleAt(r, n);
        CopiesAdded(queue, Entry(WithoutAck(m), AckOf(WithoutAck(m))), n);
      }
    case Pump(frame, nowMs) => PumpIsSoundIff(r, lineSpeed, frame, nowMs);
  }

  lemma StepStaysLost(r: Run, lineSpeed: nat, op: Op, n: nat)
    requires lineSpeed > 0 && Traced(r) && Possible(r, op)
    requires n in r.given && Copies(r.f.link.queue, n) == 0
    requires n in r.f.pending ==> !r.f.pending[n].message.Reliable()
    ensures var r' := Performed(r, lineSpeed, op);
            && Traced(r') && n in r'.given && Copies(r'.f.link.queue, n) == 0
            && (n in r'.f.pending ==> !r'.f.pending[n].message.Reliable())
  {
    var queue := r.f.link.queue;
    match op
    case Submit(m) =>
      SubmitKeepsTraced(r, lineSpeed, m);
      if !m.Reliable() && m.command == CMD_ACK && m.payload == [] {
        CopiesAckAdded(queue, m, n);
      } else {
        CopiesAdded(queue, Entry(m, AckOf(m)), n);
      }
    case AckArrives(k) =>
    case Resend(k) =>
      ResendKeeps(r, lineSpeed, k);
      var m := r.f.pending[k].message;
      ContentIgnoresAck(m, 0);
      CopiesAdded(queue, Entry(WithoutAck(m), AckOf(WithoutAck(m))), n);
    case Pump(frame, nowMs) =>
      if Due(r.f.link, frame, nowMs) {
        PumpKeeps(r, lineSpeed, frame, nowMs);
        LeavingKeepsNumber(queue[0]);
      }
  }

  /** No unreliable message leaves under a pending packet's number. */
  ghost predicate ClashFree(r: Run, lineSpeed: nat, ops: seq<Op>)
    requires lineSpeed > 0
    decreases |ops|
  {
    ops == []
    || ((ops[0].Pump? ==> !Clash(r.f, ops[0].frame, ops[0].nowMs))
        && (Possible(r, ops[0]) ==> ClashFree(Performed(r, lineSpeed, ops[0]), lineSpeed, ops[1..])))
  }

  /**
    In a run without clashes what is pending is always what was submitted, and waits in
    the queue just when marked so.
   */
  lemma {:induction false} SoundWithoutClashes(r: Run, lineSpeed: nat, ops: seq<Op>, r': Run)
    requires lineSpeed > 0 && Traced(r) && Single(r) && Sound(r)
    requires Reaches(r, lineSpeed, ops, r') && ClashFree(r, lineSpeed, ops)
    ensures Sound(r')
    decreases |ops|
  {
    if ops != [] {
      StepKeeps(r, lineSpeed, ops[0]);
      StepKeepsSound(r, lineSpeed, ops[0]);
      SoundWithoutClashes(Performed(r, lineSpeed, ops[0]), lineSpeed, ops[1..], r');
    }
  }

  /**
    Once an unreliable message is pending under a packet's number, no copy of
    that packet is ever queued again, so none ever leaves, however often it is
    resent.
   */
  lemma {:induction false} ReplacedIsLost(r: Run, lineSpeed: nat, ops: seq<Op>, r': Run, n: nat)
    requires lineSpeed > 0 && Traced(r) && Reaches(r, lineSpeed, ops, r')
    requires n in r.given && Copies(r.f.link.queue, n) == 0
    requires n in r.f.pending ==> !r.f.pending[n].message.Reliable()
    ensures Copies(r'.f.link.queue, n) == 0
    ensures n in r'.f.pending ==> !r'.f.pending[n].message.Reliable()
    decreases |ops|
  {
    if ops != [] {
      StepStaysLost(r, lineSpeed, ops[0], n);
      ReplacedIsLost(Performed(r, lineSpeed, ops[0]), lineSpeed, ops[1..], r', n);
    }
  }


  const DATA := Message(Endpoint("a", 1), FLAG_RELIABLE, 0, 1, 7, 1, 0, [1], false)
  const NOTICE := DATA.(typeFlags := 0, payload := [2])

  /**
    The two counters of a session overlap, so this happens: the reliable packet leaves
    once and can never leave again.
   */
  lemma ReplacementHappens()
    ensures exists ops, r ::
      && Reaches(NEW_RUN, 1000, ops, r) && 1 in r.f.pending && 1 in r.given && DATA == r.given[1]
      && !r.f.pending[1].message.Reliable() && Copies(r.f.link.queue, 1) == 0
  {
    var r1 := Performed(NEW_RUN, 1000, Submit(DATA));
    var r2 := Performed(r1, 1000, Submit(NOTICE));
    var r3 := Performed(r2, 1000, Pump(0, 1));
    var r4 := Performed(r3, 1000, Pump(2, 100));
    assert Reaches(r4, 1000, [], r4);
    assert Reaches(r3, 1000, [Pump(2, 100)], r4) by { assert [Pump(2, 100)][1..] == []; }
    assert Reaches(r2, 1000, [Pump(0, 1), Pump(2, 100)], r4) by {
      assert [Pump(0, 1), Pump(2, 100)][1..] == [Pump(2, 100)];
    }
    assert Reaches(r1, 1000, [Submit(NOTICE), Pump(0, 1), Pump(2, 100)], r4) by {
      assert [Submit(NOTICE), Pump(0, 1), Pump(2, 100)][1..] == [Pump(0, 1), Pump(2, 100)];
    }
    var ops := [Submit(DATA), Submit(NOTICE), Pump(0, 1), Pump(2, 100)];
    assert Reaches(NEW_RUN, 1000, ops, r4) by { assert ops[1..] == [Submit(NOTICE), Pump(0, 1), Pump(2, 100)]; }
  }
}
