/**
  The per-Area room list a client keeps, and the row and delete events that
  bring it up to date (`_room_list_updates`, opensnap/plugins/outbreak/plugin.py
  and opensnap/plugins/monsterhunter/plugin.py). `Row` is a game's list row.
 */
module RoomList {
  import opened Snap

  /** One listed room: its Area and its row. */
  datatype Listed<Row> = Listed(area: int, row: Row)

  type Directory<Row> = map<int, Listed<Row>>

  datatype ListEvent<Row> = Put(roomId: int, row: Row) | Delete(roomId: int)

  /** New and changed rows of one Area, in room order, for the ids below `n`. */
  function Puts<Row(==)>(before: Directory<Row>, after: Directory<Row>, area: int, n: nat): seq<ListEvent<Row>> {
    if n == 0 then []
    else
      var id := n - 1;
      Puts(before, after, area, id)
      + if id in after && after[id].area == area && (id !in before || before[id] != after[id])
        then [Put(id, after[id].row)] else []
  }

  /** The rooms of one Area that are listed no more. */
  function Deletes<Row(==)>(before: Directory<Row>, after: Directory<Row>, area: int, n: nat): seq<ListEvent<Row>> {
    if n == 0 then []
    else
      var id := n - 1;
      Deletes(before, after, area, id)
      + if id in before && before[id].area == area && id !in after then [Delete(id)] else []
  }

  function Updates<Row(==)>(before: Directory<Row>, after: Directory<Row>, area: int, n: nat): seq<ListEvent<Row>> {
    Puts(before, after, area, n) + Deletes(before, after, area, n)
  }

  // The client's side.

  function Apply<Row>(view: map<int, Row>, e: ListEvent<Row>): map<int, Row> {
    match e
    case Put(id, row) => view[id := row]
    case Delete(id) => view - {id}
  }

  function ApplyAll<Row>(view: map<int, Row>, events: seq<ListEvent<Row>>): map<int, Row> {
    if events == [] then view else Apply(ApplyAll(view, events[..|events| - 1]), events[|events| - 1])
  }

  /** What a client that asks for the Area's list is told. */
  function Listing<Row>(d: Directory<Row>, area: int): map<int, Row> {
    map id | id in d && d[id].area == area :: d[id].row
  }

  lemma {:induction false} ApplyAllAppends<Row>(view: map<int, Row>, a: seq<ListEvent<Row>>, b: seq<ListEvent<Row>>)
    ensures ApplyAll(view, a + b) == ApplyAll(ApplyAll(view, a), b)
    decreases |b|
  {
    if b == [] {
      assert a + b == a;
    } else {
      ApplyAllAppends(view, a, b[..|b| - 1]);
      assert (a + b)[..|a + b| - 1] == a + b[..|b| - 1];
    }
  }

  function At<Row>(view: map<int, Row>, id: int): Option<Row> {
    if id in view then Some(view[id]) else None
  }

  lemma ApplyOne<Row>(view: map<int, Row>, events: seq<ListEvent<Row>>, e: ListEvent<Row>)
    ensures ApplyAll(view, events + [e]) == Apply(ApplyAll(view, events), e)
    ensures ApplyAll(view, events + []) == ApplyAll(view, events)
  {
    assert (events + [e])[..|events|] == events && events + [] == events;
  }

  lemma {:induction false} PutsAt<Row>(view: map<int, Row>, before: Directory<Row>, after: Directory<Row>, area: int,
                                       n: nat, id: int)
    ensures At(ApplyAll(view, Puts(before, after, area, n)), id)
         == if 0 <= id < n && id in after && after[id].area == area && (id !in before || before[id] != after[id])
            then Some(after[id].row) else At(view, id)
  {
    if n > 0 {
      var last := n - 1;
      PutsAt(view, before, after, area, last, id);
      if last in after {
        ApplyOne(view, Puts(before, after, area, last), Put(last, after[last].row));
      } else {
        ApplyOne(view, Puts(before, after, area, last), Delete(last));
      }
    }
  }

  lemma {:induction false} DeletesAt<Row>(view: map<int, Row>, before: Directory<Row>, after: Directory<Row>, area: int,
                                          n: nat, id: int)
    ensures At(ApplyAll(view, Deletes(before, after, area, n)), id)
         == if 0 <= id < n && id in before && before[id].area == area && id !in after then None else At(view, id)
  {
    if n > 0 {
      var last := n - 1;
      DeletesAt(view, before, after, area, last, id);
      ApplyOne<Row>(view, Deletes(before, after, area, last), Delete(last));
    }
  }

  /** Ids below `n`, and a room listed before and after is in the same Area. */
  ghost predicate Comparable<Row>(before: Directory<Row>, after: Directory<Row>, n: nat) {
    && (forall id :: id in before || id in after ==> 0 <= id < n)
    && (forall id :: id in before && id in after ==> before[id].area == after[id].area)
  }

  /** The view agrees, room by room, with the list before or with the list after. */
  ghost predicate Between<Row>(view: map<int, Row>, before: map<int, Row>, after: map<int, Row>) {
    forall id :: At(view, id) == At(before, id) || At(view, id) == At(after, id)
  }

  /**
    Applying the events of a change turns the old list into the new one, and
    does so from any view on the way between the two, such as the one a client
    holds when an update of a nested change reached it first.
   */
  lemma UpdatesReplicate<Row>(view: map<int, Row>, before: Directory<Row>, after: Directory<Row>, area: int, n: nat)
    requires Comparable(before, after, n)
    requires Between(view, Listing(before, area), Listing(after, area))
    ensures ApplyAll(view, Updates(before, after, area, n)) == Listing(after, area)
  {
    var result := ApplyAll(view, Updates(before, after, area, n));
    forall id ensures At(result, id) == At(Listing(after, area), id) {
      UpdatedAt(view, before, after, area, n, id);
      assert At(view, id) == At(Listing(before, area), id) || At(view, id) == At(Listing(after, area), id);
    }
    SameAtEverywhere(result, Listing(after, area));
  }

  lemma UpdatedAt<Row>(view: map<int, Row>, before: Directory<Row>, after: Directory<Row>, area: int, n: nat, id: int)
    requires Comparable(before, after, n)
    ensures At(ApplyAll(view, Updates(before, after, area, n)), id)
         == if id in after && after[id].area == area && (id !in before || before[id] != after[id])
            then Some(after[id].row)
            else if id in before && before[id].area == area && id !in after then None
            else At(view, id)
  {
    var puts := Puts(before, after, area, n);
    ApplyAllAppends(view, puts, Deletes(before, after, area, n));
    PutsAt(view, before, after, area, n, id);
    DeletesAt(ApplyAll(view, puts), before, after, area, n, id);
  }

  lemma SameAtEverywhere<Row>(a: map<int, Row>, b: map<int, Row>)
    requires forall id :: At(a, id) == At(b, id)
    ensures a == b
  {
    forall id ensures id in a <==> id in b { assert At(a, id) == At(b, id); }
    forall id | id in a && id in b ensures a[id] == b[id] { assert At(a, id) == At(b, id); }
  }

  /** Updating any view for one change leaves each row as it was or as it is after the change. */
  lemma UpdatesStayBetween<Row>(view: map<int, Row>, before: Directory<Row>, after: Directory<Row>, area: int, n: nat)
    requires Comparable(before, after, n)
    ensures Between(ApplyAll(view, Updates(before, after, area, n)), view, Listing(after, area))
  {
    var result := ApplyAll(view, Updates(before, after, area, n));
    forall id ensures At(result, id) == At(view, id) || At(result, id) == At(Listing(after, area), id) {
      UpdatedAt(view, before, after, area, n, id);
    }
  }

  // A client over many changes.

  function Flat<T>(xs: seq<seq<T>>): seq<T> {
    if xs == [] then [] else Flat(xs[..|xs| - 1]) + xs[|xs| - 1]
  }

  lemma {:induction false} MirrorsStepByStep<Row>(lists: seq<map<int, Row>>, changes: seq<seq<ListEvent<Row>>>)
    requires |lists| == |changes| + 1
    requires forall i :: 0 <= i < |changes| ==> ApplyAll(lists[i], changes[i]) == lists[i + 1]
    ensures ApplyAll(lists[0], Flat(changes)) == lists[|changes|]
    decreases |changes|
  {
    if changes != [] {
      var n := |changes| - 1;
      MirrorsStepByStep(lists[..n + 1], changes[..n]);
      ApplyAllAppends(lists[0], Flat(changes[..n]), changes[n]);
    }
  }
}
