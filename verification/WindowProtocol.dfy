/**
  One numbering epoch end to end: a sending channel, a network that loses,
  duplicates and reorders both packets and ACKs, and a receiver that keeps the
  window of `Receiver`. Any packet ever sent may arrive at any later time, any
  number of times or never; a resend adds nothing to that.
 */
module WindowProtocol {
  import opened Snap
  import opened Channel
  import opened Receiver

  /** `plan` holds the epoch's reliable packets in the order they are submitted. */
  datatype Epoch = Epoch(plan: seq<Message>, latches: bool)

  datatype State = State(ch: Channel, submitted: nat, acks: set<int>, client: Window<Message>)

  datatype Action =
    | SubmitNext(count: nat)
    | Arrive(packet: Message)
    | AckArrives(sequence: int)

  const START := State(IDLE, 0, {}, Fresh())

  predicate ValidPlan(plan: seq<Message>) {
    forall i, j :: 0 <= i < j < |plan| ==> plan[i].sequence != plan[j].sequence
  }

  /**
    A receiver whose epoch has begun, or that latches onto the first packet it
    sees, uses `Receive`; the other kind starts out expecting packet 0.
   */
  function Take(latches: bool, w: Window<Message>, m: Message): Window<Message> {
    if latches || w.last >= 0 || m.sequence == 0 then Receive(w, m.sequence, m)
    else if m.sequence in w.held then w
    else w.(held := w.held[m.sequence := m])
  }

  /** An action that is not possible in a state leaves it unchanged. */
  function Step(e: Epoch, s: State, a: Action): State {
    match a
    case SubmitNext(count) =>
      if s.submitted + count <= |e.plan| then
        s.(ch := SendAll(s.ch, e.plan[s.submitted..s.submitted + count]), submitted := s.submitted + count)
      else s
    case Arrive(m) =>
      // Every copy is acknowledged, delivered, held or duplicate.
      if m in s.ch.sent then s.(client := Take(e.latches, s.client, m), acks := s.acks + {m.sequence}) else s
    case AckArrives(n) =>
      if n in s.acks then s.(ch := Acked(s.ch, n)) else s
  }

  function Execute(e: Epoch, s: State, actions: seq<Action>): State {
    if actions == [] then s
    else Step(e, Execute(e, s, actions[..|actions| - 1]), actions[|actions| - 1])
  }

  /** Everything on the wire lies within the receiver's 16 slots. */
  predicate WindowSafe(s: State) {
    && (forall m :: m in s.ch.sent ==> m.sequence < s.client.last + 1 + MAX_INFLIGHT)
    && (forall n :: n in s.client.held ==> s.client.last + 1 < n < s.client.last + 1 + MAX_INFLIGHT)
  }

  /** No packet is submitted ahead of one numbered 16 or more below it. */
  predicate SafeOrder(plan: seq<Message>) {
    forall i, n :: 0 <= i < |plan| && 0 <= n <= plan[i].sequence - MAX_INFLIGHT ==> Numbered(plan[..i], n)
  }

  predicate Numbered(ms: seq<Message>, n: int) {
    exists j :: 0 <= j < |ms| && ms[j].sequence == n
  }

  predicate Got(w: Window<Message>, n: int) {
    n <= w.last || n in w.held
  }

  // The invariant.

  ghost predicate SenderInv(e: Epoch, s: State) {
    && s.submitted <= |e.plan|
    && Accepted(s.ch) == e.plan[..s.submitted]
    && (forall p :: p in s.ch.pending ==> s.ch.pending[p] in s.ch.sent && s.ch.pending[p].sequence == p)
    && (forall m :: m in s.ch.sent ==> m.sequence in s.ch.pending || Got(s.client, m.sequence))
    && (forall n :: n in s.acks ==> Got(s.client, n))
    && WithinWindow(s.ch)
  }

  ghost predicate ClientInv(e: Epoch, w: Window<Message>, sent: seq<Message>) {
    && w.last >= -1
    && w.last + 1 !in w.held
    && (forall n :: n in w.held ==> n > w.last && w.held[n] in sent && w.held[n].sequence == n)
    && |w.delivered| <= w.last + 1
    && (forall k :: 0 <= k < |w.delivered| ==>
          w.delivered[k] in sent && w.delivered[k].sequence == w.last + 1 - |w.delivered| + k)
    && (e.latches && w.last < 0 ==> w.held == map[])
    && (!e.latches ==> |w.delivered| == w.last + 1)
    && (w.last >= 0 ==> w.delivered != [])
  }

  ghost predicate Inv(e: Epoch, s: State) {
    && SenderInv(e, s)
    && ClientInv(e, s.client, s.ch.sent)
  }

  ghost predicate InWindow(s: State) {
    forall m :: m in s.ch.sent ==> m.sequence < s.client.last + 1 + MAX_INFLIGHT
  }

  // Sending.

  /** What was first sent is a prefix of the plan. */
  lemma SentIsPlanned(e: Epoch, s: State)
    requires Inv(e, s)
    ensures |s.ch.sent| <= |e.plan| && s.ch.sent == e.plan[..|s.ch.sent|]
  {
    assert s.ch.sent == Accepted(s.ch)[..|s.ch.sent|];
  }

  /**
    The heart of the matter: the number the receiver waits for is either still
    in flight, and then the span test bounds what goes out beside it, or was
    never sent, and then the plan's order does.
   */
  lemma NextSendFits(e: Epoch, s: State, m: Message)
    requires ValidPlan(e.plan) && SafeOrder(e.plan) && Inv(e, s)
    requires |s.ch.sent| < |e.plan| && m == e.plan[|s.ch.sent|]
    requires HasRoom(s.ch.pending, m.sequence)
    ensures m.sequence < s.client.last + 1 + MAX_INFLIGHT
  {
    SentIsPlanned(e, s);
    var next := s.client.last + 1;
    assert next <= m.sequence - MAX_INFLIGHT ==> Numbered(e.plan[..|s.ch.sent|], next);
  }

  /** A first send of the next planned packet. */
  lemma SendKeepsInv(e: Epoch, s: State, ch: Channel, m: Message)
    requires ValidPlan(e.plan) && Inv(e, s)
    requires |s.ch.sent| < |e.plan| && m == e.plan[|s.ch.sent|] && HasRoom(s.ch.pending, m.sequence)
    requires ch.pending == s.ch.pending && ch.sent == s.ch.sent && Accepted(Send(ch, m)) == e.plan[..s.submitted]
    ensures Inv(e, s.(ch := Send(ch, m)))
    ensures SafeOrder(e.plan) && InWindow(s) ==> InWindow(s.(ch := Send(ch, m)))
  {
    SendKeepsWindow(ch, m);
    if SafeOrder(e.plan) && InWindow(s) {
      NextSendFits(e, s, m);
    }
  }

  lemma {:induction false} FlushKeepsInv(e: Epoch, s: State)
    requires ValidPlan(e.plan) && Inv(e, s)
    ensures Inv(e, s.(ch := Flush(s.ch)))
    ensures SafeOrder(e.plan) && InWindow(s) ==> InWindow(s.(ch := Flush(s.ch)))
    decreases |s.ch.deferred|
  {
    var ch := s.ch;
    if ch.deferred != [] && HasRoom(ch.pending, ch.deferred[0].sequence) {
      var m, rest := ch.deferred[0], ch.(deferred := ch.deferred[1..]);
      SentIsPlanned(e, s);
      assert m == Accepted(ch)[|ch.sent|];
      assert Accepted(Send(rest, m)) == Accepted(ch);
      SendKeepsInv(e, s, rest, m);
      FlushKeepsInv(e, s.(ch := Send(rest, m)));
    }
  }

  lemma SubmitKeepsInv(e: Epoch, t: State)
    requires ValidPlan(e.plan) && Inv(e, t) && t.submitted < |e.plan|
    ensures var t' := t.(ch := Submit(t.ch, e.plan[t.submitted]), submitted := t.submitted + 1);
            Inv(e, t') && (SafeOrder(e.plan) && InWindow(t) ==> InWindow(t'))
  {
    var m := e.plan[t.submitted];
    assert e.plan[..t.submitted + 1] == e.plan[..t.submitted] + [m];
    if t.ch.deferred == [] && HasRoom(t.ch.pending, m.sequence) {
      assert Accepted(t.ch) == t.ch.sent;
      SendKeepsWindow(t.ch, m);
      if SafeOrder(e.plan) && InWindow(t) {
        NextSendFits(e, t, m);
      }
    } else {
      assert Accepted(Submit(t.ch, m)) == Accepted(t.ch) + [m];
    }
  }

  /** `s` after `count` more packets have been handed to its channel. */
  function Handed(e: Epoch, s: State, count: nat): State
    requires s.submitted + count <= |e.plan|
  {
    s.(ch := SubmitAll(s.ch, e.plan[s.submitted..s.submitted + count]), submitted := s.submitted + count)
  }

  lemma HandedStep(e: Epoch, s: State, count: nat)
    requires 0 < count && s.submitted + count <= |e.plan|
    ensures var t := Handed(e, s, count - 1);
            t.submitted == s.submitted + count - 1
            && Handed(e, s, count) == t.(ch := Submit(t.ch, e.plan[t.submitted]), submitted := t.submitted + 1)
  {
    var ms := e.plan[s.submitted..s.submitted + count];
    assert ms[..count - 1] == e.plan[s.submitted..s.submitted + count - 1];
  }

  lemma {:induction false} SubmitAllKeepsInv(e: Epoch, s: State, count: nat)
    requires ValidPlan(e.plan) && Inv(e, s) && s.submitted + count <= |e.plan|
    ensures Inv(e, Handed(e, s, count)) && (SafeOrder(e.plan) && InWindow(s) ==> InWindow(Handed(e, s, count)))
  {
    if count > 0 {
      SubmitAllKeepsInv(e, s, count - 1);
      HandedStep(e, s, count);
      SubmitKeepsInv(e, Handed(e, s, count - 1));
    } else {
      assert Handed(e, s, 0) == s;
    }
  }

  // Receiving.

  function HandedOn(w: Window<Message>): Window<Message>
    requires w.last + 1 in w.held
  {
    Window(w.last + 1, w.held - {w.last + 1}, w.delivered + [w.held[w.last + 1]])
  }

  lemma HandOnKeeps(e: Epoch, w: Window<Message>, sent: seq<Message>)
    requires w.last >= 0 && ClientInv(e, w.(held := w.held - {w.last + 1}), sent)
    requires forall n :: n in w.held ==> w.held[n] in sent && w.held[n].sequence == n
    requires w.last + 1 in w.held
    ensures var w' := HandedOn(w); ClientInv(e, w'.(held := w'.held - {w'.last + 1}), sent)
    ensures forall k :: Got(w, k) <==> Got(HandedOn(w), k)
  {
  }

  lemma {:induction false} DrainKeepsClientInv(e: Epoch, w: Window<Message>, sent: seq<Message>)
    requires w.last >= 0 && ClientInv(e, w.(held := w.held - {w.last + 1}), sent)
    requires forall n :: n in w.held ==> w.held[n] in sent && w.held[n].sequence == n
    ensures ClientInv(e, Drain(w), sent)
    ensures forall n :: Got(w, n) <==> Got(Drain(w), n)
    ensures w.last <= Drain(w).last
    decreases |w.held|
  {
    var n := w.last + 1;
    if n in w.held {
      DropShrinks(w.held, n);
      HandOnKeeps(e, w, sent);
      DrainKeepsClientInv(e, HandedOn(w), sent);
    } else {
      assert w.held - {n} == w.held;
    }
  }

  lemma TakeKeepsClientInv(e: Epoch, w: Window<Message>, sent: seq<Message>, m: Message)
    requires ClientInv(e, w, sent) && m in sent
    ensures ClientInv(e, Take(e.latches, w, m), sent)
    ensures forall n :: Got(w, n) ==> Got(Take(e.latches, w, m), n)
    ensures Got(Take(e.latches, w, m), m.sequence)
    ensures w.last <= Take(e.latches, w, m).last
  {
    var n := m.sequence;
    if (e.latches || w.last >= 0 || n == 0) && Accept(w.last, w.held.Keys, n) == Deliver {
      var w' := Window(n, w.held, w.delivered + [m]);
      DrainKeepsClientInv(e, w', sent);
      assert forall k :: Got(w, k) ==> Got(w', k);
      assert Got(w', n);
    }
  }

  // Runs.

  lemma SubmitNextKeepsInv(e: Epoch, s: State, count: nat)
    requires ValidPlan(e.plan) && Inv(e, s) && s.submitted + count <= |e.plan|
    ensures Inv(e, Step(e, s, SubmitNext(count)))
    ensures SafeOrder(e.plan) && InWindow(s) ==> InWindow(Step(e, s, SubmitNext(count)))
  {
    var flushed := s.(ch := Flush(s.ch));
    FlushKeepsInv(e, s);
    SubmitAllKeepsInv(e, flushed, count);
    FlushKeepsInv(e, Handed(e, flushed, count));
    SubmitNextIs(e, s, count);
  }

  lemma SubmitNextIs(e: Epoch, s: State, count: nat)
    requires s.submitted + count <= |e.plan|
    ensures var handed := Handed(e, s.(ch := Flush(s.ch)), count);
            Step(e, s, SubmitNext(count)) == handed.(ch := Flush(handed.ch))
  {
  }

  lemma ArriveKeepsInv(e: Epoch, s: State, m: Message)
    requires ValidPlan(e.plan) && Inv(e, s) && m in s.ch.sent
    ensures Inv(e, Step(e, s, Arrive(m)))
    ensures InWindow(s) ==> InWindow(Step(e, s, Arrive(m)))
  {
    SentIsPlanned(e, s);
    TakeKeepsClientInv(e, s.client, s.ch.sent, m);
  }

  lemma AckKeepsInv(e: Epoch, s: State, n: int)
    requires Inv(e, s) && n in s.acks
    ensures Inv(e, Step(e, s, AckArrives(n)))
  {
    assert (s.ch.pending - {n}).Keys == s.ch.pending.Keys - {n};
  }

  lemma StepKeepsInv(e: Epoch, s: State, a: Action)
    requires ValidPlan(e.plan) && Inv(e, s)
    ensures Inv(e, Step(e, s, a))
    ensures SafeOrder(e.plan) && InWindow(s) ==> InWindow(Step(e, s, a))
  {
    match a
    case SubmitNext(count) =>
      if s.submitted + count <= |e.plan| { SubmitNextKeepsInv(e, s, count); }
    case Arrive(m) =>
      if m in s.ch.sent { ArriveKeepsInv(e, s, m); }
    case AckArrives(n) =>
      if n in s.acks { AckKeepsInv(e, s, n); }
  }

  lemma {:induction false} RunKeepsInv(e: Epoch, actions: seq<Action>)
    requires ValidPlan(e.plan)
    ensures Inv(e, Execute(e, START, actions))
    ensures SafeOrder(e.plan) ==> InWindow(Execute(e, START, actions))
  {
    if actions != [] {
      var n := |actions| - 1;
      RunKeepsInv(e, actions[..n]);
      StepKeepsInv(e, Execute(e, START, actions[..n]), actions[n]);
    }
  }

  /**
    Receive-window safety. Over every run, with any loss, duplication and
    reordering of packets and ACKs, everything sent lies below the receiver's
    next expected number + 16, and so does everything it holds.
   */
  lemma ReceiveWindowSafety(e: Epoch, actions: seq<Action>)
    requires ValidPlan(e.plan) && SafeOrder(e.plan)
    ensures WindowSafe(Execute(e, START, actions))
  {
    RunKeepsInv(e, actions);
  }

  /** Submitting in the order the numbers were allocated, from 0 up, is a safe order. */
  lemma AllocationOrderIsSafe(plan: seq<Message>)
    requires forall i :: 0 <= i < |plan| ==> plan[i].sequence == i
    ensures ValidPlan(plan) && SafeOrder(plan)
  {
    forall i, n | 0 <= i < |plan| && 0 <= n <= plan[i].sequence - MAX_INFLIGHT
      ensures Numbered(plan[..i], n)
    {
      assert plan[..i][n].sequence == n;
    }
  }

  /**
    The condition is exact. From an order that is not safe, a run in which
    nothing is lost puts a packet past the end of a receiver that waits for 0.
   */
  lemma UnsafeOrderOverrunsWindow(plan: seq<Message>) returns (actions: seq<Action>)
    requires ValidPlan(plan) && !SafeOrder(plan)
    ensures !WindowSafe(Execute(Epoch(plan, false), START, actions))
  {
    var e := Epoch(plan, false);
    var i, n :| 0 <= i < |plan| && 0 <= n <= plan[i].sequence - MAX_INFLIGHT && !Numbered(plan[..i], n);
    actions := OneByOne(e, i);
    var s := Execute(e, START, actions);
    RunKeepsInv(e, actions);
    if n <= s.client.last {
      HandedOnWasSent(e, s, n);
      assert false;
    }
    actions := actions + [SubmitNext(1)];
    Append(e, START, actions[..|actions| - 1], SubmitNext(1));
    var s' := Execute(e, START, actions);
    SendFromIdle(e, s);
    assert plan[i] in s'.ch.sent;
  }

  lemma HandedOnWasSent(e: Epoch, s: State, n: int)
    requires Inv(e, s) && !e.latches && 0 <= n <= s.client.last
    ensures Numbered(s.ch.sent, n)
  {
    assert s.client.delivered[n] in s.ch.sent;
  }

  lemma AcknowledgedWasGot(e: Epoch, s: State, n: int)
    requires Inv(e, s) && s.ch.pending == map[] && Numbered(s.ch.sent, n)
    ensures Got(s.client, n)
  {
    var j :| 0 <= j < |s.ch.sent| && s.ch.sent[j].sequence == n;
    assert s.ch.sent[j] in s.ch.sent;
  }

  /** With nothing in flight or deferred, the next submission goes out at once. */
  lemma SendFromIdle(e: Epoch, s: State)
    requires s.ch.pending == map[] && s.ch.deferred == [] && s.submitted < |e.plan|
    ensures var m := e.plan[s.submitted];
            Step(e, s, SubmitNext(1)) == s.(ch := Send(s.ch, m), submitted := s.submitted + 1)
  {
    var m := e.plan[s.submitted];
    var ms := e.plan[s.submitted..s.submitted + 1];
    assert ms == [m];
    assert SubmitAll(s.ch, ms) == Submit(SubmitAll(s.ch, []), m);
  }

  /** The run that submits, delivers and acknowledges the first `i` packets one at a time. */
  lemma {:induction false} OneByOne(e: Epoch, i: nat) returns (actions: seq<Action>)
    requires ValidPlan(e.plan) && !e.latches && i <= |e.plan|
    ensures var s := Execute(e, START, actions);
            && s.ch.pending == map[] && s.ch.deferred == [] && s.ch.sent == e.plan[..i] && s.submitted == i
  {
    if i == 0 {
      actions := [];
    } else {
      var before := OneByOne(e, i - 1);
      var s0 := Execute(e, START, before);
      var m := e.plan[i - 1];
      SendFromIdle(e, s0);
      actions := before + [SubmitNext(1)] + [Arrive(m)] + [AckArrives(m.sequence)];
      Append(e, START, before, SubmitNext(1));
      Append(e, START, before + [SubmitNext(1)], Arrive(m));
      Append(e, START, before + [SubmitNext(1)] + [Arrive(m)], AckArrives(m.sequence));
      assert e.plan[..i] == e.plan[..i - 1] + [m];
      assert map[m.sequence := m] - {m.sequence} == map[];
    }
  }

  lemma Append(e: Epoch, s: State, actions: seq<Action>, a: Action)
    ensures Execute(e, s, actions + [a]) == Step(e, Execute(e, s, actions), a)
  {
    assert (actions + [a])[..|actions|] == actions;
  }

  // Delivery.

  /**
    End-to-end delivery, whatever the submission order: what the receiver has
    been handed are packets of the plan, consecutive in number, once each; from
    number 0 on unless the receiver latched onto a later first packet.
   */
  lemma DeliveredInOrderOnce(e: Epoch, actions: seq<Action>)
    requires ValidPlan(e.plan)
    ensures var w := Execute(e, START, actions).client;
            var base := w.last + 1 - |w.delivered|;
            && base >= 0
            && (!e.latches ==> base == 0)
            && (forall k :: 0 <= k < |w.delivered| ==>
                  w.delivered[k] in e.plan && w.delivered[k].sequence == base + k)
  {
    RunKeepsInv(e, actions);
    SentIsPlanned(e, Execute(e, START, actions));
  }

  lemma AcknowledgeOne(e: Epoch, actions: seq<Action>, p: int) returns (two: seq<Action>)
    requires ValidPlan(e.plan) && p in Execute(e, START, actions).ch.pending
    ensures var s, s' := Execute(e, START, actions), Execute(e, START, actions + two);
            && s'.submitted == s.submitted && s'.ch.deferred == s.ch.deferred
            && |s'.ch.pending| < |s.ch.pending|
  {
    var s := Execute(e, START, actions);
    RunKeepsInv(e, actions);
    var m := s.ch.pending[p];
    two := [Arrive(m), AckArrives(p)];
    Append(e, START, actions, Arrive(m));
    Append(e, START, actions + [Arrive(m)], AckArrives(p));
    assert actions + two == actions + [Arrive(m)] + [AckArrives(p)];
    assert (s.ch.pending - {p}).Keys == s.ch.pending.Keys - {p};
  }

  lemma FlushSome(e: Epoch, actions: seq<Action>)
    requires ValidPlan(e.plan)
    requires var ch := Execute(e, START, actions).ch; ch.pending == map[] && ch.deferred != []
    ensures var s, s' := Execute(e, START, actions), Execute(e, START, actions + [SubmitNext(0)]);
            s'.submitted == s.submitted && |s'.ch.deferred| < |s.ch.deferred|
  {
    var s := Execute(e, START, actions);
    RunKeepsInv(e, actions);
    Append(e, START, actions, SubmitNext(0));
    FlushConserves(s.ch);
    StallNeedsInflight(s.ch);
    FlushTwice(s.ch);
    assert e.plan[s.submitted..s.submitted + 0] == [];
  }

  /**
    No run can get stuck: from any reachable state some continuation gets every
    submitted packet sent and acknowledged, with nothing left deferred.
   */
  lemma {:induction false} CanFinish(e: Epoch, actions: seq<Action>) returns (more: seq<Action>)
    requires ValidPlan(e.plan)
    ensures var s := Execute(e, START, actions + more);
            && s.submitted == Execute(e, START, actions).submitted
            && s.ch.pending == map[] && s.ch.deferred == []
    decreases |Execute(e, START, actions).ch.deferred|, |Execute(e, START, actions).ch.pending|
  {
    var ch := Execute(e, START, actions).ch;
    more := [];
    assert actions + [] == actions;
    if p :| p in ch.pending {
      var two := AcknowledgeOne(e, actions, p);
      var rest := CanFinish(e, actions + two);
      more := two + rest;
      assert actions + more == actions + two + rest;
    } else {
      assert forall p :: p !in ch.pending.Keys;
      assert ch.pending.Keys == {};
      assert ch.pending == map[];
      if ch.deferred != [] {
        FlushSome(e, actions);
        var rest := CanFinish(e, actions + [SubmitNext(0)]);
        more := [SubmitNext(0)] + rest;
        assert actions + more == actions + [SubmitNext(0)] + rest;
      }
    }
  }

  lemma FlushTwice(ch: Channel)
    ensures Flush(Flush(ch)) == Flush(ch)
  {
    FlushConserves(ch);
  }

  /** Once a plan numbered from 0 is finished, all of it has been delivered, in number order. */
  lemma FinishedMeansDelivered(e: Epoch, actions: seq<Action>)
    requires ValidPlan(e.plan) && !e.latches
    requires forall n :: 0 <= n < |e.plan| ==> Numbered(e.plan, n)
    requires var s := Execute(e, START, actions);
             s.submitted == |e.plan| && s.ch.pending == map[] && s.ch.deferred == []
    ensures var w := Execute(e, START, actions).client;
            && |w.delivered| >= |e.plan|
            && forall n :: 0 <= n < |e.plan| ==> w.delivered[n] in e.plan && w.delivered[n].sequence == n
  {
    RunKeepsInv(e, actions);
    var s := Execute(e, START, actions);
    SentIsPlanned(e, s);
    assert s.ch.sent == e.plan;
    var next := s.client.last + 1;
    if next < |e.plan| {
      AcknowledgedWasGot(e, s, next);
      assert false;
    }
  }

  /**
    A handler that allocates `k` callbacks and then the result it emits ahead of
    them (numbers base..base+k-1, then base+k sent first) keeps the order safe
    exactly when there are fewer than 16 of them.
   */
  lemma ResultAheadOfCallbacksIsSafeIff(plan: seq<Message>, base: nat, k: nat)
    requires |plan| == base + k + 1
    requires forall i :: 0 <= i < base ==> plan[i].sequence == i
    requires plan[base].sequence == base + k
    requires forall i :: base < i <= base + k ==> plan[i].sequence == i - 1
    ensures SafeOrder(plan) <==> k < MAX_INFLIGHT
  {
    if k < MAX_INFLIGHT {
      forall i, n | 0 <= i < |plan| && 0 <= n <= plan[i].sequence - MAX_INFLIGHT
        ensures Numbered(plan[..i], n)
      {
        var j := if n < base then n else n + 1;
        assert plan[..i][j].sequence == n;
      }
    } else {
      assert !Numbered(plan[..base], base);
    }
  }
}
