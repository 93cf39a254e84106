/**
  The post-game barrier of a room (opensnap/plugins/automodellista/plugin.py):
  the room exit is sent once every member has reported both an end marker and
  a result.
 */
module PostGameBarrier {
  import opened Snap

  /** A room without a phase has seen no game start since its last reset. */
  datatype Phase = SyncStarted | InGame | GameOver | ResultSent

  datatype Tag = GameStart | EndMarker | Finish | RoomExit | Untagged

  datatype Mask = Mask(ended: bool, finished: bool)

  const NONE := Mask(false, false)

  datatype Room = Room(phase: Option<Phase>, reports: map<int, Mask>)

  const IDLE := Room(None, map[])

  function MaskOf(reports: map<int, Mask>, m: int): Mask {
    if m in reports then reports[m] else NONE
  }

  function Reported(mask: Mask, tag: Tag): Mask {
    Mask(mask.ended || tag == EndMarker, mask.finished || tag == Finish)
  }

  /** The phase once the packet's tag has been looked at. */
  function Advanced(phase: Option<Phase>, tag: Tag): Option<Phase> {
    var p := if phase == Some(SyncStarted) && tag == Untagged then Some(InGame) else phase;
    if p.Some? && tag == EndMarker then Some(GameOver) else p
  }

  /** Whether the packet counts as a report; after the exit was sent a result alone does not. */
  predicate Counts(phase: Option<Phase>, tag: Tag) {
    (tag == EndMarker || tag == Finish) && Advanced(phase, tag).Some? && Advanced(phase, tag) != Some(ResultSent)
  }

  function Updated(reports: map<int, Mask>, sender: int, tag: Tag, members: set<int>): map<int, Mask> {
    var kept := map m | m in reports && m in members :: reports[m];
    kept[sender := Reported(MaskOf(kept, sender), tag)]
  }

  predicate Complete(reports: map<int, Mask>, members: set<int>) {
    forall m :: m in members ==> MaskOf(reports, m) == Mask(true, true)
  }

  predicate Emits(r: Room, sender: int, tag: Tag, members: set<int>) {
    Counts(r.phase, tag) && members != {} && Complete(Updated(r.reports, sender, tag, members), members)
  }

  function Packet(r: Room, sender: int, tag: Tag, members: set<int>): Room {
    if tag == GameStart then Room(Some(SyncStarted), map[])
    else if !Counts(r.phase, tag) then Room(Advanced(r.phase, tag), r.reports)
    else if members == {} then IDLE
    else if Emits(r, sender, tag, members) then Room(Some(ResultSent), map[])
    else Room(Advanced(r.phase, tag), Updated(r.reports, sender, tag, members))
  }

  class PostGameBarrier {
    var roomGameStates: map<int, Phase>
    var postGameReports: map<int, map<int, Mask>>

    constructor ()
      ensures forall r :: RoomOf(r) == IDLE
    {
      roomGameStates, postGameReports := map[], map[];
    }

    ghost function RoomOf(room: int): Room
      reads this
    {
      Room(if room in roomGameStates then Some(roomGameStates[room]) else None,
           if room in postGameReports then postGameReports[room] else map[])
    }

    method ResetPostGameState(room: int)
      modifies this
      ensures RoomOf(room) == IDLE && forall r :: r != room ==> RoomOf(r) == old(RoomOf(r))
    {
      roomGameStates := roomGameStates - {room};
      postGameReports := postGameReports - {room};
    }

    /** `told` are the members sent the room exit; `members` are the sessions in the room now. */
    method BuildPostGameTransitionMessages(room: int, sender: int, tag: Tag, members: set<int>) returns (told: set<int>)
      modifies this
      ensures room <= 0 ==> told == {} && forall r :: RoomOf(r) == old(RoomOf(r))
      ensures room > 0 ==>
                && told == (if old(Emits(RoomOf(room), sender, tag, members)) then members else {})
                && RoomOf(room) == old(Packet(RoomOf(room), sender, tag, members))
                && forall r :: r != room ==> RoomOf(r) == old(RoomOf(r))
    {
      told := {};
      if room <= 0 {
        return;
      }
      if tag == GameStart {
        ResetPostGameState(room);
        roomGameStates := roomGameStates[room := SyncStarted];
        return;
      }
      if room in roomGameStates && roomGameStates[room] == SyncStarted && tag == Untagged {
        roomGameStates := roomGameStates[room := InGame];
      }
      if room !in roomGameStates {
        return;
      }
      if tag == EndMarker {
        roomGameStates := roomGameStates[room := GameOver];
      }
      if roomGameStates[room] == ResultSent || (tag != EndMarker && tag != Finish) {
        return;
      }
      if members == {} {
        ResetPostGameState(room);
        return;
      }
      told := NoteReport(room, sender, tag, members);
    }

    /** Note the report beside those of the sessions still there; when all are in, the exit uses them up. */
    method NoteReport(room: int, sender: int, tag: Tag, members: set<int>) returns (told: set<int>)
      requires room in roomGameStates
      modifies this
      ensures var reports := Updated(old(RoomOf(room)).reports, sender, tag, members);
              if Complete(reports, members) then told == members && RoomOf(room) == Room(Some(ResultSent), map[])
              else told == {} && RoomOf(room) == Room(old(RoomOf(room)).phase, reports)
      ensures forall r :: r != room ==> RoomOf(r) == old(RoomOf(r))
    {
      told := {};
      var reports := if room in postGameReports then postGameReports[room] else map[];
      reports := map m | m in reports && m in members :: reports[m];
      reports := reports[sender := Reported(MaskOf(reports, sender), tag)];
      postGameReports := postGameReports[room := reports];
      var complete := forall m :: m in members ==> MaskOf(reports, m) == Mask(true, true);
      if complete {
        postGameReports := postGameReports - {room};
        roomGameStates := roomGameStates[room := ResultSent];
        told := members;
      }
    }
  }

  // Histories of one room.

  /** A game packet from a session in the room, or a reset (a create, a join, a leave, a timeout, a closed room). */
  datatype Event = Sent(sender: int, tag: Tag, members: set<int>) | Reset

  function Next(r: Room, e: Event): Room {
    if e.Reset? then IDLE else Packet(r, e.sender, e.tag, e.members)
  }

  function After(h: seq<Event>): Room {
    if h == [] then IDLE else Next(After(h[..|h| - 1]), h[|h| - 1])
  }

  /** The `i`-th event sends the room exit. */
  predicate EmitsAt(h: seq<Event>, i: nat)
    requires i < |h|
  {
    h[i].Sent? && h[i].tag != GameStart && Emits(After(h[..i]), h[i].sender, h[i].tag, h[i].members)
  }

  /** A sender is in the room it sends to. */
  ghost predicate Proper(h: seq<Event>) {
    forall i :: 0 <= i < |h| && h[i].Sent? ==> h[i].sender in h[i].members
  }

  predicate StartedAt(h: seq<Event>, k: nat)
    requires k < |h|
  {
    h[k].Sent? && h[k].tag == GameStart && forall i :: k < i < |h| ==> h[i].Sent?
  }

  ghost predicate Started(h: seq<Event>) {
    exists k :: 0 <= k < |h| && StartedAt(h, k)
  }

  predicate CountsAt(h: seq<Event>, i: nat)
    requires i < |h|
  {
    h[i].Sent? && Counts(After(h[..i]).phase, h[i].tag)
  }

  /** All reports are forgotten: a reset, a game start or a room exit. */
  predicate ClearsAt(h: seq<Event>, i: nat)
    requires i < |h|
  {
    h[i].Reset? || h[i].tag == GameStart || EmitsAt(h, i)
  }

  /** `m` sent this report at `i`, nothing has cleared it since, and `m` has been there at every report since. */
  predicate StandsFrom(h: seq<Event>, m: int, tag: Tag, i: nat)
    requires i < |h|
  {
    && CountsAt(h, i) && h[i].sender == m && h[i].tag == tag && !ClearsAt(h, i)
    && forall j :: i < j < |h| ==> !ClearsAt(h, j) && (CountsAt(h, j) ==> m in h[j].members)
  }

  ghost predicate Stands(h: seq<Event>, m: int, tag: Tag) {
    exists i :: 0 <= i < |h| && StandsFrom(h, m, tag, i)
  }

  lemma PrefixAt(h: seq<Event>, n: nat, i: nat)
    requires i < n <= |h|
    ensures h[..n][i] == h[i] && h[..n][..i] == h[..i]
    ensures EmitsAt(h[..n], i) == EmitsAt(h, i) && CountsAt(h[..n], i) == CountsAt(h, i)
            && ClearsAt(h[..n], i) == ClearsAt(h, i)
  {
    assert h[..n][..i] == h[..i];
  }

  /** A room has a phase exactly when a game start is its last reset. */
  lemma {:induction false} PhaseMeansStarted(h: seq<Event>)
    requires Proper(h)
    ensures After(h).phase.Some? <==> Started(h)
  {
    if h != [] {
      var n := |h| - 1;
      PhaseMeansStarted(h[..n]);
      if h[n].Sent? && h[n].tag == GameStart {
        assert StartedAt(h, n);
      } else if h[n].Sent? {
        if k :| 0 <= k < n && StartedAt(h[..n], k) { assert StartedAt(h, k); }
        if k :| 0 <= k < |h| && StartedAt(h, k) { assert StartedAt(h[..n], k); }
      }
    }
  }

  function Bit(mask: Mask, tag: Tag): bool {
    if tag == EndMarker then mask.ended else mask.finished
  }

  lemma StandsFromPrefix(h: seq<Event>, m: int, tag: Tag, i: nat)
    requires i < |h| - 1
    ensures var n := |h| - 1;
            StandsFrom(h, m, tag, i)
            <==> StandsFrom(h[..n], m, tag, i) && !ClearsAt(h, n) && (CountsAt(h, n) ==> m in h[n].members)
  {
    var n := |h| - 1;
    forall j | 0 <= j < n ensures h[..n][j] == h[j] && ClearsAt(h[..n], j) == ClearsAt(h, j)
        && CountsAt(h[..n], j) == CountsAt(h, j) {
      PrefixAt(h, n, j);
    }
  }

  predicate ReportsNow(h: seq<Event>, m: int, tag: Tag)
    requires h != []
  {
    var n := |h| - 1;
    CountsAt(h, n) && h[n].sender == m && h[n].tag == tag
  }

  /** The last event's effect on whether a report stands. */
  lemma StandsStep(h: seq<Event>, m: int, tag: Tag)
    requires h != []
    ensures var n := |h| - 1;
            Stands(h, m, tag)
            <==> !ClearsAt(h, n)
                 && (ReportsNow(h, m, tag) || (Stands(h[..n], m, tag) && (CountsAt(h, n) ==> m in h[n].members)))
  {
    var n := |h| - 1;
    if Stands(h, m, tag) {
      var i :| 0 <= i < |h| && StandsFrom(h, m, tag, i);
      if i < n { StandsFromPrefix(h, m, tag, i); }
    }
    if Stands(h[..n], m, tag) && !ClearsAt(h, n) && (CountsAt(h, n) ==> m in h[n].members) {
      var i :| 0 <= i < n && StandsFrom(h[..n], m, tag, i);
      StandsFromPrefix(h, m, tag, i);
    }
    if ReportsNow(h, m, tag) && !ClearsAt(h, n) { assert StandsFrom(h, m, tag, n); }
  }

  lemma UpdatedBit(reports: map<int, Mask>, sender: int, tag: Tag, members: set<int>, m: int, t: Tag)
    requires (t == EndMarker || t == Finish) && sender in members
    ensures Bit(MaskOf(Updated(reports, sender, tag, members), m), t)
       <==> (m == sender && t == tag) || (Bit(MaskOf(reports, m), t) && m in members)
  {
  }

  /** What the server holds of a member is exactly which of its reports stand. */
  lemma {:induction false} ReportsAreThoseThatStand(h: seq<Event>, m: int, tag: Tag)
    requires Proper(h) && (tag == EndMarker || tag == Finish)
    ensures Bit(MaskOf(After(h).reports, m), tag) <==> Stands(h, m, tag)
  {
    if h != [] {
      var n := |h| - 1;
      ReportsAreThoseThatStand(h[..n], m, tag);
      StandsStep(h, m, tag);
      if h[n].Sent? { UpdatedBit(After(h[..n]).reports, h[n].sender, h[n].tag, h[n].members, m, tag); }
    }
  }

  /** A member's report is in: it sent it just now, or one it sent stands. */
  ghost predicate In(h: seq<Event>, i: nat, m: int, tag: Tag)
    requires i < |h| && h[i].Sent?
  {
    (m == h[i].sender && tag == h[i].tag) || Stands(h[..i], m, tag)
  }

  /**
    The post-game barrier: a packet makes the server send the room exit exactly
    when it is a report, a game has started since the last reset, the packet is
    not a result after an exit already sent, and every session in the room has
    both its reports in, each since the last exit or reset and with the session
    there at every report since.
   */
  lemma ExitIsSentIff(h: seq<Event>, i: nat)
    requires Proper(h) && i < |h| && h[i].Sent?
    ensures EmitsAt(h, i)
       <==> && (h[i].tag == EndMarker || h[i].tag == Finish)
            && Started(h[..i])
            && (h[i].tag == Finish ==> After(h[..i]).phase != Some(ResultSent))
            && (forall m :: m in h[i].members ==> In(h, i, m, EndMarker) && In(h, i, m, Finish))
  {
    var r, e := After(h[..i]), h[i];
    assert Proper(h[..i]);
    PhaseMeansStarted(h[..i]);
    assert e.sender in e.members;
    forall m | m in e.members
      ensures MaskOf(Updated(r.reports, e.sender, e.tag, e.members), m) == Mask(true, true)
         <==> In(h, i, m, EndMarker) && In(h, i, m, Finish)
    {
      ReportsAreThoseThatStand(h[..i], m, EndMarker);
      ReportsAreThoseThatStand(h[..i], m, Finish);
      UpdatedBit(r.reports, e.sender, e.tag, e.members, m, EndMarker);
      UpdatedBit(r.reports, e.sender, e.tag, e.members, m, Finish);
    }
  }

  /** No report counts twice: after an exit nothing stands, and the next one needs every report again. */
  lemma ExitConsumesReports(h: seq<Event>, m: int, tag: Tag)
    requires Proper(h) && h != [] && EmitsAt(h, |h| - 1) && (tag == EndMarker || tag == Finish)
    ensures !Stands(h, m, tag)
  {
    ReportsAreThoseThatStand(h, m, tag);
  }

  // A second exit for one game.

  /** Once the exit is sent nothing is held until the next end marker. */
  lemma {:induction false} NothingHeldAfterExit(h: seq<Event>)
    ensures After(h).phase == Some(ResultSent) ==> After(h).reports == map[]
  {
    if h != [] { NothingHeldAfterExit(h[..|h| - 1]); }
  }

  lemma EndMarkersReopen(h: seq<Event>, m: int)
    requires Proper(h) && Stands(h, m, EndMarker)
    ensures After(h).phase != Some(ResultSent)
  {
    NothingHeldAfterExit(h);
    ReportsAreThoseThatStand(h, m, EndMarker);
  }

  /** Neither a game start nor a reset after event `i` and before event `j`. */
  predicate SameGame(h: seq<Event>, i: nat, j: nat)
    requires i < j < |h|
  {
    forall k :: i < k < j ==> h[k].Sent? && h[k].tag != GameStart
  }

  /** The report is sent just now, or was sent after event `i` and still stands. */
  ghost predicate FreshlyIn(h: seq<Event>, i: nat, j: nat, m: int, tag: Tag)
    requires i < j < |h| && h[j].Sent?
  {
    (m == h[j].sender && tag == h[j].tag) || exists k :: i < k < j && StandsFrom(h[..j], m, tag, k)
  }

  lemma InIsFresh(h: seq<Event>, i: nat, j: nat, m: int, tag: Tag)
    requires i < j < |h| && h[j].Sent? && EmitsAt(h, i)
    ensures In(h, j, m, tag) <==> FreshlyIn(h, i, j, m, tag)
  {
    PrefixAt(h, j, i);
    if Stands(h[..j], m, tag) {
      var k :| 0 <= k < j && StandsFrom(h[..j], m, tag, k);
      assert ClearsAt(h[..j], i);
      assert k > i;
    }
  }

  lemma StillStarted(h: seq<Event>, i: nat, j: nat)
    requires Proper(h) && i < j < |h| && EmitsAt(h, i) && SameGame(h, i, j)
    ensures Started(h[..j])
  {
    ExitIsSentIff(h, i);
    var k :| 0 <= k < i && StartedAt(h[..i], k);
    forall x | k < x < j ensures h[..j][x].Sent? {
      if x < i { assert h[..i][x].Sent?; }
    }
    assert h[..i][k] == h[..j][k];
    assert StartedAt(h[..j], k);
  }

  /**
    After an exit and without another game start, the next exit comes exactly
    with the packet that completes, after the first exit, a new end marker and
    a new result from every session then in the room.
   */
  lemma SecondExitIff(h: seq<Event>, i: nat, j: nat)
    requires Proper(h) && i < j < |h| && h[j].Sent? && EmitsAt(h, i) && SameGame(h, i, j)
    ensures EmitsAt(h, j)
       <==> && (h[j].tag == EndMarker || h[j].tag == Finish)
            && (forall m :: m in h[j].members ==> FreshlyIn(h, i, j, m, EndMarker) && FreshlyIn(h, i, j, m, Finish))
  {
    ExitIsSentIff(h, j);
    StillStarted(h, i, j);
    forall m, tag ensures In(h, j, m, tag) <==> FreshlyIn(h, i, j, m, tag) { InIsFresh(h, i, j, m, tag); }
    assert h[j].sender in h[j].members && Proper(h[..j]);
    if h[j].tag == Finish && In(h, j, h[j].sender, EndMarker) { EndMarkersReopen(h[..j], h[j].sender); }
  }

  /** So a game whose end markers all came before its exit has no other exit. */
  lemma OneExitWithoutLateEndMarkers(h: seq<Event>, i: nat, j: nat)
    requires Proper(h) && i < j < |h| && EmitsAt(h, i) && SameGame(h, i, j)
    requires forall k :: i < k <= j && h[k].Sent? ==> h[k].tag != EndMarker
    ensures !EmitsAt(h, j)
  {
    if EmitsAt(h, j) {
      assert h[j].sender in h[j].members;
      SecondExitIff(h, i, j);
    }
  }

  /** It does happen: an end marker and a result that come late have the room exit sent twice for one game. */
  lemma SecondExitNeedsNoStart()
    ensures exists h: seq<Event> :: Proper(h) && |h| == 5 && EmitsAt(h, 2) && EmitsAt(h, 4)
                        && forall i :: 0 < i < 5 ==> h[i].Sent? && h[i].tag != GameStart
  {
    var start, end, fin := Sent(1, GameStart, {1}), Sent(1, EndMarker, {1}), Sent(1, Finish, {1});
    var h := [start, end, fin, end, fin];
    assert h[..0] == [] && h[..1] == [start] && h[..1][..0] == [];
    assert h[..2][..1] == h[..1] && h[..3][..2] == h[..2] && h[..4][..3] == h[..3];
    assert After(h[..1]) == Room(Some(SyncStarted), map[]);
    var half := map[1 := Mask(true, false)];
    assert Updated(map[], 1, EndMarker, {1}) == half;
    assert After(h[..2]) == Room(Some(GameOver), half);
    assert MaskOf(Updated(half, 1, Finish, {1}), 1) == Mask(true, true);
    assert EmitsAt(h, 2);
    assert After(h[..3]) == Room(Some(ResultSent), map[]);
    assert After(h[..4]) == Room(Some(GameOver), half);
    assert EmitsAt(h, 4);
    assert Proper(h);
  }
}
