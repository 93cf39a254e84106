/**
  The reliable receive window kept by both ends of a connection
  (opensnap/core/sessions.py): a packet ahead of a missing sequence is held and
  handed on once the gap is filled; the first sequence of an epoch becomes its base.
 */
module Receiver {

  datatype Receipt = Deliver | Hold | Duplicate

  /** `accept_incoming` on one session: `last` is negative until the epoch's first packet. */
  function Accept(last: int, held: set<int>, sequence: int): (r: Receipt)
  {
    if last < 0 then Deliver
    else if sequence <= last || sequence in held then Duplicate
    else if sequence == last + 1 then Deliver
    else Hold
  }

  /** A receiver and everything it handed on since its epoch began. */
  datatype Window<T> = Window(last: int, held: map<int, T>, delivered: seq<T>)

  function Fresh<T>(): Window<T> {
    Window(-1, map[], [])
  }

  /** Hand on what is now in order. */
  function Drain<T>(w: Window<T>): Window<T>
    decreases |w.held|
  {
    if w.last + 1 in w.held then
      DropShrinks(w.held, w.last + 1);
      Drain(Window(w.last + 1, w.held - {w.last + 1}, w.delivered + [w.held[w.last + 1]]))
    else w
  }

  lemma DropShrinks<T>(m: map<int, T>, k: int)
    requires k in m
    ensures |m - {k}| < |m|
  {
    assert (m - {k}).Keys == m.Keys - {k};
  }

  /** One packet arrives. */
  function Receive<T>(w: Window<T>, sequence: int, item: T): Window<T> {
    match Accept(w.last, w.held.Keys, sequence)
    case Deliver => Drain(Window(sequence, w.held, w.delivered + [item]))
    case Hold => w.(held := w.held[sequence := item])
    case Duplicate => w
  }

  function ReceiveAll<T>(arrivals: seq<int>, content: int -> T): Window<T> {
    if arrivals == [] then Fresh()
    else
      var n := arrivals[|arrivals| - 1];
      Receive(ReceiveAll(arrivals[..|arrivals| - 1], content), n, content(n))
  }

  /** The items numbered `from..to - 1`, in order. */
  function Span<T>(from: int, to: int, content: int -> T): (s: seq<T>)
    decreases to - from
    ensures |s| == if from < to then to - from else 0
    ensures forall k :: 0 <= k < |s| ==> s[k] == content(from + k)
  {
    if from >= to then [] else Span(from, to - 1, content) + [content(to - 1)]
  }

  /**
    What exact reassembly means: the items handed on are the run `base..last`,
    all of it received, in order and once each; the run is maximal; and what is
    held is exactly the rest of what was received.
   */
  ghost predicate Reassembled<T(!new)>(w: Window<T>, base: int, received: set<int>, content: int -> T) {
    && base <= w.last
    && (forall n :: base <= n <= w.last ==> n in received)
    && w.last + 1 !in received
    && w.delivered == Span(base, w.last + 1, content)
    && w.held.Keys == (set n | n in received && n > w.last)
    && (forall n :: n in w.held ==> w.held[n] == content(n))
  }

  /** `Reassembled` but for what is ready to be drained. */
  ghost predicate Draining<T(!new)>(w: Window<T>, base: int, received: set<int>, content: int -> T) {
    && base <= w.last
    && (forall n :: base <= n <= w.last ==> n in received)
    && w.delivered == Span(base, w.last + 1, content)
    && w.held.Keys == (set n | n in received && n > w.last)
    && (forall n :: n in w.held ==> w.held[n] == content(n))
  }

  lemma {:induction false} DrainReassembles<T(!new)>(w: Window<T>, base: int, received: set<int>, content: int -> T)
    requires Draining(w, base, received, content)
    ensures Reassembled(Drain(w), base, received, content)
    decreases |w.held|
  {
    var n := w.last + 1;
    if n in w.held {
      DropShrinks(w.held, n);
      var w' := Window(n, w.held - {n}, w.delivered + [w.held[n]]);
      assert w'.held.Keys == (set k | k in received && k > n);
      DrainReassembles(w', base, received, content);
    }
  }

  lemma ReceiveReassembles<T(!new)>(w: Window<T>, base: int, received: set<int>, content: int -> T, n: int)
    requires Reassembled(w, base, received, content) && base >= 0 && n >= 0
    ensures Reassembled(Receive(w, n, content(n)), base, if n < base then received else received + {n}, content)
  {
    match Accept(w.last, w.held.Keys, n)
    case Deliver =>
      var w' := Window(n, w.held, w.delivered + [content(n)]);
      assert w'.held.Keys == (set k | k in received + {n} && k > n);
      DrainReassembles(w', base, received + {n}, content);
    case Hold =>
      assert w.held.Keys + {n} == (set k | k in received + {n} && k > w.last);
    case Duplicate =>
      assert n < base || received + {n} == received;
  }

  function SinceBase(arrivals: seq<int>, base: int): set<int> {
    set n | n in arrivals && n >= base
  }

  /**
    Reassembly is exact for every arrival order, with any loss and any
    duplicates: the epoch's first packet is the base, and of what was received
    from there on the maximal contiguous run has been handed on.
   */
  lemma {:induction false} ReassemblyIsExact<T(!new)>(arrivals: seq<int>, content: int -> T)
    requires arrivals != [] && forall n :: n in arrivals ==> n >= 0
    ensures Reassembled(ReceiveAll(arrivals, content), arrivals[0],
                        SinceBase(arrivals, arrivals[0]), content)
  {
    var m := |arrivals| - 1;
    var n := arrivals[m];
    if m == 0 {
      assert arrivals[..0] == [];
      assert SinceBase(arrivals, n) == {n};
      DrainReassembles(Window(n, map[], [content(n)]), n, {n}, content);
    } else {
      var before := arrivals[..m];
      assert arrivals == before + [n];
      assert arrivals[0] in arrivals && n in arrivals && forall k :: k in before ==> k in arrivals;
      ReassemblyIsExact(before, content);
      ReceiveReassembles(ReceiveAll(before, content), arrivals[0], SinceBase(before, arrivals[0]), content, n);
      assert SinceBase(arrivals, arrivals[0])
          == if n < arrivals[0] then SinceBase(before, arrivals[0]) else SinceBase(before, arrivals[0]) + {n};
    }
  }

  /**
    Whatever the order, the same packets after the same first one give the same
    delivery: the window is a function of the base and the set received.
   */
  lemma ArrivalOrderIrrelevant<T(!new)>(a: seq<int>, b: seq<int>, content: int -> T)
    requires a != [] && b != [] && a[0] == b[0]
    requires forall n :: n in a ==> n >= 0
    requires forall n :: n in a <==> n in b
    ensures ReceiveAll(a, content) == ReceiveAll(b, content)
  {
    ReassemblyIsExact(a, content);
    ReassemblyIsExact(b, content);
    var wa, wb := ReceiveAll(a, content), ReceiveAll(b, content);
    var received := SinceBase(a, a[0]);
    assert received == SinceBase(b, b[0]);
    assert wa.last + 1 !in received && wb.last + 1 !in received;
    assert wa.held == wb.held;
  }

  /**
    A packet below the base is never handed on: everything received is
    delivered or held exactly when the epoch's first packet was its lowest.
   */
  lemma NothingIsSkippedIff<T(!new)>(arrivals: seq<int>, content: int -> T)
    requires arrivals != [] && forall n :: n in arrivals ==> n >= 0
    ensures var w := ReceiveAll(arrivals, content);
            (forall n :: n in arrivals ==> arrivals[0] <= n <= w.last || n in w.held)
            <==> (forall n :: n in arrivals ==> arrivals[0] <= n)
  {
    ReassemblyIsExact(arrivals, content);
  }

  // Copies of a packet need not be alike.

  function Numbers<T>(items: seq<(int, T)>): (numbers: seq<int>)
    ensures |numbers| == |items| && forall i :: 0 <= i < |items| ==> numbers[i] == items[i].0
  {
    seq(|items|, i requires 0 <= i < |items| => items[i].0)
  }

  function ReceiveItems<T>(items: seq<(int, T)>): Window<T> {
    if items == [] then Fresh()
    else
      var n := |items| - 1;
      Receive(ReceiveItems(items[..n]), items[n].0, items[n].1)
  }

  /** The first item with that number. */
  function FirstCopy<T>(items: seq<(int, T)>, n: int): T
    requires items != []
  {
    if |items| == 1 || items[0].0 == n then items[0].1 else FirstCopy(items[1..], n)
  }

  lemma {:induction false} FirstCopyStays<T>(items: seq<(int, T)>, item: (int, T), n: int)
    requires items != []
    ensures FirstCopy(items + [item], n)
         == if n in Numbers(items) then FirstCopy(items, n) else item.1
    decreases |items|
  {
    var rest := items[1..];
    assert (items + [item])[0] == items[0] && (items + [item])[1..] == rest + [item];
    assert n == items[0].0 ==> Numbers(items)[0] == n;
    if items[0].0 != n {
      if rest == [] {
        assert rest + [item] == [item];
        assert n !in Numbers(items);
      } else {
        FirstCopyStays(rest, item, n);
        assert forall i :: 0 <= i < |rest| ==> Numbers(rest)[i] == Numbers(items)[i + 1];
        assert n in Numbers(items) <==> n in Numbers(rest);
      }
    }
  }

  /** Of several copies of a packet only the first counts, whatever the others contain. */
  lemma {:induction false} FirstCopyCounts<T(!new)>(items: seq<(int, T)>, content: int -> T)
    requires items != [] && forall n :: n in Numbers(items) ==> n >= 0 && content(n) == FirstCopy(items, n)
    ensures ReceiveItems(items) == ReceiveAll(Numbers(items), content)
    decreases |items|
  {
    var m := |items| - 1;
    var before, item := items[..m], items[m];
    assert items == before + [item];
    assert Numbers(items)[..m] == Numbers(before) && Numbers(items)[m] == item.0;
    if before == [] {
      assert Numbers(before) == [];
    } else {
      forall n | n in Numbers(before) ensures n in Numbers(items) && FirstCopy(items, n) == FirstCopy(before, n) {
        var i :| 0 <= i < m && Numbers(before)[i] == n;
        assert Numbers(items)[i] == n;
        FirstCopyStays(before, item, n);
      }
      FirstCopyCounts(before, content);
      FirstCopyStays(before, item, item.0);
      if item.0 in Numbers(before) { RepeatsAreDuplicates(Numbers(before), content, item.0); }
    }
  }

  lemma RepeatsAreDuplicates<T(!new)>(arrivals: seq<int>, content: int -> T, n: int)
    requires n in arrivals && forall k :: k in arrivals ==> k >= 0
    ensures var w := ReceiveAll(arrivals, content); Accept(w.last, w.held.Keys, n) == Duplicate
  {
    ReassemblyIsExact(arrivals, content);
    assert arrivals[0] in arrivals;
    assert n >= arrivals[0] ==> n in SinceBase(arrivals, arrivals[0]);
  }

  lemma ItemsReassemble<T(!new)>(items: seq<(int, T)>)
    requires items != [] && forall n :: n in Numbers(items) ==> n >= 0
    ensures Reassembled(ReceiveItems(items), items[0].0, SinceBase(Numbers(items), items[0].0),
            n => FirstCopy(items, n))
  {
    var content := n => FirstCopy(items, n);
    FirstCopyCounts(items, content);
    ReassemblyIsExact(Numbers(items), content);
  }
}
