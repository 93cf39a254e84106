/**
  The fate of every message a datagram's pass comes to: ignored, run, or
  answered with a bare ACK. Which one is said of the numbers that its session's
  epoch was offered and has accepted.
 */
module EngineAcks {
  import opened Snap
  import opened Receiver
  import opened Sessions
  import opened Engine
  import opened EngineEpochs

  /** The message, and the state in which the pass comes to it. */
  datatype Coming = Coming(st: State, m: Message)

  /** The message is a copy of a packet of a live session that has accepted something. */
  predicate IsCopy(x: Coming) {
    && !x.m.embedded && x.m.Reliable() && !IsBareAck(x.m)
    && x.m.sessionId in x.st.reg.byId
    && EpochOf(x.st, x.m.sessionId).accepted != []
  }

  function LastAccepted(x: Coming): int
    requires IsCopy(x)
  {
    var accepted := EpochOf(x.st, x.m.sessionId).accepted;
    accepted[|accepted| - 1]
  }

  /** Command 0 with both the room and the response bit. */
  predicate IsBareAck(m: Message) {
    m.command == 0 && m.typeFlags / 0x2000 % 2 == 1 && m.typeFlags / 0x4000 % 2 == 1
  }

  /** A copy of a packet that was accepted or waits already. */
  predicate IsRepeat(x: Coming) {
    IsCopy(x) && (x.m.sequence <= LastAccepted(x) || x.m.sequence in x.st.reg.byId[x.m.sessionId].held)
  }

  /** A packet ahead of a missing one. */
  predicate IsAhead(x: Coming) {
    IsCopy(x) && x.m.sequence > LastAccepted(x) + 1 && x.m.sequence !in x.st.reg.byId[x.m.sessionId].held
  }

  function Acknowledged(xs: seq<Coming>): seq<Message> {
    if xs == [] then []
    else (if IsRepeat(xs[0]) || IsAhead(xs[0]) then [xs[0].m] else []) + Acknowledged(xs[1..])
  }

  function RunOf(env: Env, xs: seq<Coming>): seq<Message> {
    if xs == [] then []
    else
      var x := xs[0];
      (if !IsBareAck(x.m) && !IsRepeat(x) && !IsAhead(x) && env.handled(x.m) then [x.m] else []) + RunOf(env, xs[1..])
  }

  /**
    What the pass comes to: the children of a repeat are passed over, and after
    a packet ahead of a missing one the rest of the datagram waits with it.
   */
  function Comes(env: Env, st: State, ms: seq<Message>, skip: bool): seq<Coming>
    decreases |ms|
  {
    if ms == [] then []
    else if skip && ms[0].embedded then Comes(env, st, ms[1..], true)
    else
      var x := Coming(st, Normalized(st.reg, ms[0]));
      [x] + if IsAhead(x) then [] else Comes(env, Pass(env, st, [ms[0]], false).0, ms[1..], IsRepeat(x))
  }

  lemma FateOfOne(env: Env, st: State, first: Message)
    requires LogInv(st)
    ensures var x := Coming(st, Normalized(st.reg, first)); var st' := Pass(env, st, [first], false).0;
            && (IsRepeat(x) <==> Windowed(x.m) && x.m.sessionId in st.reg.byId && ReceiptFor(st.reg, x.m) == Duplicate)
            && (IsAhead(x) <==> Windowed(x.m) && x.m.sessionId in st.reg.byId && ReceiptFor(st.reg, x.m) == Hold)
            && (IsBareAck(x.m) <==> BareAck(x.m))
            && st'.acked == st.acked + (if IsRepeat(x) || IsAhead(x) then [x.m] else [])
            && st'.dispatched == st.dispatched + RunOf(env, [x])
  {
    var x := Coming(st, Normalized(st.reg, first));
    assert [first][1..] == [] && [x][1..] == [];
    var live := x.m.sessionId in st.reg.byId;
    if live {
      var log := EpochOf(st, x.m.sessionId).accepted;
      assert log != [] ==> log[|log| - 1] == st.reg.byId[x.m.sessionId].lastIncoming;
    }
    var st1 := if Windowed(x.m) && live then AcceptedPacket(st, x.m) else st;
    EffectsOnlyChangeTables(st1.(dispatched := st1.dispatched + [x.m]), env.handler(st1.reg, st1.dispatched, x.m));
  }

  lemma {:induction false} EffectsOnlyChangeTables(st: State, effects: seq<Effect>)
    ensures AppliedAll(st, effects).dispatched == st.dispatched && AppliedAll(st, effects).acked == st.acked
    decreases |effects|
  {
    if effects != [] { EffectsOnlyChangeTables(Applied(st, effects[0]), effects[1..]); }
  }

  /** A pass is its first message, then a pass over the rest, unless the rest waits. */
  lemma PassStepByStep(env: Env, st: State, ms: seq<Message>, skip: bool)
    requires LogInv(st) && ms != [] && !(skip && ms[0].embedded)
    ensures var x := Coming(st, Normalized(st.reg, ms[0])); var st1 := Pass(env, st, [ms[0]], false).0;
            if IsAhead(x)
            then Pass(env, st, ms, skip).0.acked == st1.acked && Pass(env, st, ms, skip).0.dispatched == st1.dispatched
            else Pass(env, st, ms, skip).0 == Pass(env, st1, ms[1..], IsRepeat(x)).0
  {
    FateOfOne(env, st, ms[0]);
    assert [ms[0]][1..] == [];
  }

  /**
    Every message the pass comes to has one fate: a bare ACK is ignored; a copy
    of a packet accepted or waiting already, and a packet ahead of a missing one,
    are acknowledged, exactly once and in order; everything else is run.
   */
  lemma {:induction false} EveryMessageHasOneFate(env: Env, st: State, ms: seq<Message>, skip: bool, busy: set<int>)
    requires TableInv(st.reg, busy) && LogInv(st)
    ensures var st' := Pass(env, st, ms, skip).0; var xs := Comes(env, st, ms, skip);
            st'.acked == st.acked + Acknowledged(xs) && st'.dispatched == st.dispatched + RunOf(env, xs)
    decreases |ms|
  {
    if ms == [] {
      assert st.acked + [] == st.acked && st.dispatched + [] == st.dispatched;
    } else if skip && ms[0].embedded {
      EveryMessageHasOneFate(env, st, ms[1..], true, busy);
    } else {
      var x, st1 := Coming(st, Normalized(st.reg, ms[0])), Pass(env, st, [ms[0]], false).0;
      var rest := if IsAhead(x) then [] else Comes(env, st1, ms[1..], IsRepeat(x));
      FateOfOne(env, st, ms[0]);
      PassStepByStep(env, st, ms, skip);
      OneMoreFate(env, x, rest);
      if !IsAhead(x) {
        PassKeeps(env, st, [ms[0]], false, busy);
        EveryMessageHasOneFate(env, st1, ms[1..], IsRepeat(x), busy + Pass(env, st, [ms[0]], false).1);
      }
      JoinThree(st.acked, if IsRepeat(x) || IsAhead(x) then [x.m] else [], Acknowledged(rest));
      JoinThree(st.dispatched, RunOf(env, [x]), RunOf(env, rest));
    }
  }

  lemma OneMoreFate(env: Env, x: Coming, rest: seq<Coming>)
    ensures Acknowledged([x] + rest) == (if IsRepeat(x) || IsAhead(x) then [x.m] else []) + Acknowledged(rest)
    ensures RunOf(env, [x] + rest) == RunOf(env, [x]) + RunOf(env, rest)
  {
    assert ([x] + rest)[1..] == rest && [x][1..] == [];
  }

  /**
    When a datagram arrives, nothing being in work: the copy continues what its
    epoch accepted exactly when it is the number after the last one accepted;
    else it is a repeat exactly when the epoch was offered it before, or it is
    below the epoch's first.
   */
  lemma FateByWhatWasOffered(env: Env, st: State, m: Message)
    requires Ready(env, st) && AllAccounted(st, []) && IsCopy(Coming(st, m))
    ensures var x, e := Coming(st, m), EpochOf(st, m.sessionId);
            && (!IsRepeat(x) && !IsAhead(x) <==> m.sequence == LastAccepted(x) + 1)
            && (IsRepeat(x) <==> m.sequence in e.offered || m.sequence < e.accepted[0])
            && (IsAhead(x) <==> m.sequence !in e.offered && m.sequence > LastAccepted(x) + 1)
  {
    var id := m.sessionId;
    var s, e := st.reg.byId[id], EpochOf(st, id);
    assert Drained(s) && WellHeld(s, id);
    assert Accounted(s, e, [], id);
    assert forall n :: !Queued([], id, n);
    assert e.accepted[|e.accepted| - 1] == s.lastIncoming && e.accepted[0] == s.lastIncoming - |e.accepted| + 1;
  }

  /** So it is for the first message of any datagram, in any run. */
  lemma FateInEveryRun(env: Env, inputs: seq<Input>, d: Datagram, m: Message)
    requires Enumerates(env.order)
    ensures Ready(env, START)
    ensures var st := Followed(HandleAll(env, START, inputs), d);
            var e := EpochOf(st, m.sessionId); var x := Coming(st, m);
            IsCopy(x) ==>
              && (!IsRepeat(x) && !IsAhead(x) <==> m.sequence == LastAccepted(x) + 1)
              && (IsRepeat(x) <==> m.sequence in e.offered || m.sequence < e.accepted[0])
              && (IsAhead(x) <==> m.sequence !in e.offered && m.sequence > LastAccepted(x) + 1)
  {
    RunAccounts(env, inputs);
    var before := HandleAll(env, START, inputs);
    var st := Followed(before, d);
    FollowedKeepsReady(env, before, d);
    var id := Moving(before.reg, d.messages, d.endpoint);
    if id.Some? { EffectAccounts(before, RebindEffect(id.value, d.endpoint), {}, []); }
    if IsCopy(Coming(st, m)) { FateByWhatWasOffered(env, st, m); }
  }
}
