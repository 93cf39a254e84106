/** The record store: one row per game, board and player, and the ranking of a board (opensnap/storage/sql.py). */
module RecordBoard {
  import opened Snap
  import opened Records

  datatype Key = Key(game: string, board: string, userId: int)

  type Rows = map<Key, Row>

  /** `ORDER BY sort_key, reached_at, user_id`. */
  predicate Before(rows: Rows, a: Key, b: Key)
    requires a in rows && b in rows
  {
    || rows[a].sortKey < rows[b].sortKey
    || (rows[a].sortKey == rows[b].sortKey
        && (rows[a].reachedAt < rows[b].reachedAt || (rows[a].reachedAt == rows[b].reachedAt && a.userId < b.userId)))
  }

  function Board(rows: Rows, game: string, board: string): set<Key> {
    set k | k in rows && k.game == game && k.board == board
  }

  /** The `WHERE` clause of the rank's count, as it is written. */
  predicate CountedAhead(rows: Rows, a: Key, r: Key)
    requires a in rows && r in rows
  {
    && a.game == r.game && a.board == r.board
    && rows[a].sortKey <= rows[r].sortKey
    && (rows[a].sortKey < rows[r].sortKey || rows[a].reachedAt < rows[r].reachedAt
        || (rows[a].reachedAt == rows[r].reachedAt && a.userId < r.userId))
  }

  function Rank(rows: Rows, r: Key): nat
    requires r in rows
  {
    |set a | a in rows && CountedAhead(rows, a, r)| + 1
  }

  // Ordering a board.

  ghost predicate SameBoard(rows: Rows, keys: set<Key>) {
    && (forall k :: k in keys ==> k in rows)
    && forall a, b :: a in keys && b in keys ==> a.game == b.game && a.board == b.board
  }

  ghost predicate IsLeast(rows: Rows, keys: set<Key>, m: Key)
    requires SameBoard(rows, keys)
  {
    m in keys && forall k :: k in keys && k != m ==> Before(rows, m, k)
  }

  lemma LesserOf(rows: Rows, keys: set<Key>, x: Key, m: Key) returns (least: Key)
    requires SameBoard(rows, keys) && x in keys && IsLeast(rows, keys - {x}, m)
    ensures IsLeast(rows, keys, least)
  {
    least := if Before(rows, x, m) then x else m;
    forall k | k in keys && k != least ensures Before(rows, least, k) {
      if k != x && k != m { assert Before(rows, m, k); }
    }
  }

  lemma {:induction false} LeastExists(rows: Rows, keys: set<Key>) returns (least: Key)
    requires keys != {} && SameBoard(rows, keys)
    ensures IsLeast(rows, keys, least)
  {
    least :| least in keys;
    var x := least;
    if keys - {x} == {} {
      assert keys == {x};
    } else {
      var m := LeastExists(rows, keys - {x});
      least := LesserOf(rows, keys, x, m);
    }
  }

  lemma LeastIsThere(rows: Rows, keys: set<Key>)
    requires keys != {} && SameBoard(rows, keys)
    ensures exists m :: IsLeast(rows, keys, m)
  {
    var m := LeastExists(rows, keys);
  }

  ghost function Least(rows: Rows, keys: set<Key>): (m: Key)
    requires keys != {} && SameBoard(rows, keys)
    ensures IsLeast(rows, keys, m)
  {
    LeastIsThere(rows, keys);
    var m :| IsLeast(rows, keys, m);
    m
  }

  /** The board in `ORDER BY` order. */
  ghost function Ordered(rows: Rows, keys: set<Key>): (order: seq<Key>)
    requires SameBoard(rows, keys)
    ensures |order| == |keys| && forall k :: k in order <==> k in keys
    decreases keys
  {
    if keys == {} then []
    else
      var m := Least(rows, keys);
      [m] + Ordered(rows, keys - {m})
  }

  /** `top`: the first `limit` rows of the board. */
  ghost function Top(rows: Rows, game: string, board: string, limit: nat): seq<Key> {
    var order := Ordered(rows, Board(rows, game, board));
    if limit <= |order| then order[..limit] else order
  }

  lemma {:induction false} OrderedAscends(rows: Rows, keys: set<Key>, i: nat, j: nat)
    requires SameBoard(rows, keys)
    requires i < j < |keys|
    ensures var order := Ordered(rows, keys);
            order[i] in keys && order[j] in keys && Before(rows, order[i], order[j])
    decreases keys
  {
    hide Ordered, Before;
    var m := Least(rows, keys);
    OrderedStartsWith(rows, keys, i);
    OrderedStartsWith(rows, keys, j);
    if i > 0 { OrderedAscends(rows, keys - {m}, i - 1, j - 1); }
  }

  lemma OrderedStartsWith(rows: Rows, keys: set<Key>, i: nat)
    requires SameBoard(rows, keys) && i < |keys|
    ensures var m := Least(rows, keys); var order := Ordered(rows, keys);
            && |keys - {m}| == |keys| - 1
            && (i == 0 ==> order[0] == m)
            && (i > 0 ==> order[i] == Ordered(rows, keys - {m})[i - 1] && order[i] in keys - {m})
  {
    var m := Least(rows, keys);
    var rest := Ordered(rows, keys - {m});
    assert Ordered(rows, keys) == [m] + rest;
    if i > 0 { assert rest[i - 1] in rest; }
  }

  lemma BeforeIsCountedAhead(rows: Rows, a: Key, r: Key)
    requires a in rows && r in rows && a.game == r.game && a.board == r.board
    ensures CountedAhead(rows, a, r) <==> Before(rows, a, r)
  {
  }

  function Elements<T>(s: seq<T>): set<T> {
    set x | x in s
  }

  lemma {:induction false} DistinctCount<T>(s: seq<T>)
    requires forall i, j :: 0 <= i < j < |s| ==> s[i] != s[j]
    ensures |Elements(s)| == |s|
  {
    if s != [] {
      var n := |s| - 1;
      DistinctCount(s[..n]);
      assert Elements(s) == Elements(s[..n]) + {s[n]};
    }
  }

  /** Who is ahead of the row at position `i` is exactly who comes before it. */
  lemma AheadIsThePrefix(rows: Rows, game: string, board: string, i: nat)
    requires i < |Board(rows, game, board)|
    ensures var order := Ordered(rows, Board(rows, game, board));
            && order[i] in rows
            && (set a | a in rows && CountedAhead(rows, a, order[i])) == Elements(order[..i])
  {
    var keys := Board(rows, game, board);
    var order := Ordered(rows, keys);
    assert order[i] in order;
    forall a ensures a in rows && CountedAhead(rows, a, order[i]) <==> a in Elements(order[..i]) {
      if a in keys {
        assert a in order;
        var k :| 0 <= k < |order| && order[k] == a;
        BeforeIsCountedAhead(rows, a, order[i]);
        if k < i { OrderedAscends(rows, keys, k, i); }
        if i < k { OrderedAscends(rows, keys, i, k); }
        if a in order[..i] {
          var j :| 0 <= j < i && order[j] == a;
          OrderedAscends(rows, keys, j, i);
        }
      } else {
        assert a !in order;
      }
    }
  }

  lemma PositionIsRank(rows: Rows, game: string, board: string, i: nat)
    requires i < |Board(rows, game, board)|
    ensures var order := Ordered(rows, Board(rows, game, board)); order[i] in rows && Rank(rows, order[i]) == i + 1
  {
    var keys := Board(rows, game, board);
    var order := Ordered(rows, keys);
    AheadIsThePrefix(rows, game, board, i);
    forall a, b | 0 <= a < b < |order| ensures order[a] != order[b] { OrderedAscends(rows, keys, a, b); }
    DistinctCount(order[..i]);
  }

  /** The list of `limit` rows shows the record in position `k`. */
  ghost predicate ShownAt(rows: Rows, r: Key, k: nat, limit: nat)
    requires k >= 1
  {
    k <= |Top(rows, r.game, r.board, limit)| && Top(rows, r.game, r.board, limit)[k - 1] == r
  }

  lemma ShownAtItsPosition(rows: Rows, r: Key, k: nat, limit: nat)
    requires 1 <= k <= limit
    ensures var order := Ordered(rows, Board(rows, r.game, r.board));
            ShownAt(rows, r, k, limit) <==> k <= |order| && order[k - 1] == r
  {
  }

  lemma RankIsThePlaceInOrder(rows: Rows, r: Key, k: nat)
    requires r in rows && k >= 1
    ensures var order := Ordered(rows, Board(rows, r.game, r.board));
            Rank(rows, r) == k <==> k <= |order| && order[k - 1] == r
  {
    hide *;
    var i := PlaceOf(rows, r);
    PositionIsRank(rows, r.game, r.board, i);
    if k <= |Board(rows, r.game, r.board)| { PositionIsRank(rows, r.game, r.board, k - 1); }
  }

  lemma PlaceOf(rows: Rows, r: Key) returns (i: nat)
    requires r in rows
    ensures SameBoard(rows, Board(rows, r.game, r.board)) && i < |Board(rows, r.game, r.board)|
    ensures Ordered(rows, Board(rows, r.game, r.board))[i] == r
  {
    var order := Ordered(rows, Board(rows, r.game, r.board));
    hide Ordered;
    assert r in Board(rows, r.game, r.board);
    i :| 0 <= i < |order| && order[i] == r;
  }

  /** A record has rank `k` exactly when every list of at least `k` rows shows it in position `k`. */
  lemma RankIsThePosition(rows: Rows, r: Key, k: nat)
    requires r in rows && k >= 1
    ensures Rank(rows, r) == k <==> forall limit: nat :: limit >= k ==> ShownAt(rows, r, k, limit)
  {
    hide *;
    RankIsThePlaceInOrder(rows, r, k);
    forall limit: nat | limit >= k ensures ShownAt(rows, r, k, limit) <==> Rank(rows, r) == k {
      ShownAtItsPosition(rows, r, k, limit);
    }
    assert ShownAt(rows, r, k, k) <==> Rank(rows, r) == k;
  }

  class SqlRecordStore {
    var rows: Rows
    var boards: set<(string, string)>

    constructor ()
      ensures rows == map[] && boards == {}
    {
      rows, boards := map[], {};
    }

    method Submit(game: string, board: string, ranking: Ranking, userId: int, s: Submission)
      modifies this
      ensures rows == Submitted(old(rows), Sent(game, board, ranking, userId, s))
      ensures boards == old(boards) + {(game, board)}
    {
      var key := Key(game, board, userId);
      var inserted := NewRow(ranking, s);
      if key in rows {
        var updated := ApplyInOrder(rows[key], inserted, RecordUpdates(ranking));
        rows := rows[key := updated];
      } else {
        rows := rows[key := inserted];
      }
      boards := boards + {(game, board)};
    }

    /** `ON CONFLICT DO UPDATE SET ...`, one assignment after the other. */
    method ApplyInOrder(stored: Row, excluded: Row, sets: seq<Assignment>) returns (row: Row)
      ensures row == LeftToRight(stored, excluded, sets)
    {
      row := stored;
      for i := 0 to |sets|
        invariant LeftToRight(stored, excluded, sets) == LeftToRight(row, excluded, sets[i..])
      {
        assert sets[i..][1..] == sets[i + 1..];
        row := Written(row, sets[i].column, Eval(sets[i].value, row, excluded));
      }
    }

    /** Its rank and row, or nothing for a player without a record. */
    method Entry(game: string, board: string, userId: int) returns (ranked: Option<(nat, Row)>)
      ensures var key := Key(game, board, userId);
              ranked == if key in rows then Some((Rank(rows, key), rows[key])) else None
    {
      var key := Key(game, board, userId);
      if key !in rows {
        return None;
      }
      var ahead := 0;
      var rest := rows.Keys;
      while rest != {}
        invariant rest <= rows.Keys
        invariant ahead == |set a | a in rows && a !in rest && CountedAhead(rows, a, key)|
      {
        var a :| a in rest;
        ghost var counted := set x | x in rows && x !in rest && CountedAhead(rows, x, key);
        ghost var counted' := set x | x in rows && x !in rest - {a} && CountedAhead(rows, x, key);
        assert counted' == if CountedAhead(rows, a, key) then counted + {a} else counted;
        if CountedAhead(rows, a, key) {
          ahead := ahead + 1;
        }
        rest := rest - {a};
      }
      assert (set a | a in rows && a !in rest && CountedAhead(rows, a, key))
          == set a | a in rows && CountedAhead(rows, a, key);
      ranked := Some((ahead + 1, rows[key]));
    }
  }

  // Whole runs of the store.

  datatype Sent = Sent(game: string, board: string, ranking: Ranking, userId: int, s: Submission)

  function At(rows: Rows, key: Key): Option<Row> {
    if key in rows then Some(rows[key]) else None
  }

  function Submitted(rows: Rows, x: Sent): Rows {
    var key := Key(x.game, x.board, x.userId);
    rows[key := Upserted(At(rows, key), x.ranking, x.s)]
  }

  function After(subs: seq<Sent>): Rows {
    if subs == [] then map[] else Submitted(After(subs[..|subs| - 1]), subs[|subs| - 1])
  }

  /** One player's submissions to one board, in order. */
  function SubmissionsOf(subs: seq<Sent>, key: Key): seq<Submission> {
    if subs == [] then []
    else
      var x := subs[|subs| - 1];
      SubmissionsOf(subs[..|subs| - 1], key) + if Key(x.game, x.board, x.userId) == key then [x.s] else []
  }

  lemma RowOfOneMore(rows: Rows, x: Sent, own: seq<Submission>, key: Key, ranking: Ranking)
    requires At(rows, key) == Folded(ranking, own)
    requires Key(x.game, x.board, x.userId) == key ==> x.ranking == ranking
    ensures At(Submitted(rows, x), key)
         == Folded(ranking, own + if Key(x.game, x.board, x.userId) == key then [x.s] else [])
  {
    hide Upserted;
    if Key(x.game, x.board, x.userId) == key {
      assert (own + [x.s])[..|own|] == own;
    } else {
      assert own + [] == own;
    }
  }

  /** Whatever is submitted elsewhere, a stored row is the fold of its own player's submissions to its own board. */
  lemma {:induction false} RowsAreFolds(subs: seq<Sent>, key: Key, ranking: Ranking)
    requires forall x :: x in subs && Key(x.game, x.board, x.userId) == key ==> x.ranking == ranking
    ensures At(After(subs), key) == Folded(ranking, SubmissionsOf(subs, key))
  {
    if subs != [] {
      hide Submitted, Folded;
      var n := |subs| - 1;
      RowsAreFolds(subs[..n], key, ranking);
      RowOfOneMore(After(subs[..n]), subs[n], SubmissionsOf(subs[..n], key), key, ranking);
    }
  }

  // The best record comes first.

  lemma {:induction false} SmallerSetSmaller<T>(small: set<T>, large: set<T>)
    requires small < large
    ensures |small| < |large|
  {
    var x :| x in large && x !in small;
    if small == {} {
      assert |large| > 0;
    } else {
      var y :| y in small;
      SmallerSetSmaller(small - {y}, large - {y});
    }
  }

  lemma AheadRanksFirst(rows: Rows, a: Key, b: Key)
    requires a in rows && b in rows && a.game == b.game && a.board == b.board && Before(rows, a, b)
    ensures Rank(rows, a) < Rank(rows, b)
  {
    var aheadOfA := set k | k in rows && CountedAhead(rows, k, a);
    var aheadOfB := set k | k in rows && CountedAhead(rows, k, b);
    assert a in aheadOfB && a !in aheadOfA;
    SmallerSetSmaller(aheadOfA, aheadOfB);
  }

  /**
    Of two players' rows on one board the one with the better score has the
    smaller rank, a lower score being better on a lowest-score board and a higher
    one on all others; equal scores go by the time they were reached, equal times
    by the players' ids.
   */
  lemma BetterRanksFirst(
    rows: Rows, ranking: Ranking, a: Key, b: Key, ofA: seq<Submission>, i: nat, ofB: seq<Submission>, j: nat)
    requires a in rows && b in rows && a.game == b.game && a.board == b.board && a.userId != b.userId
    requires i < |ofA| && Shows(ranking, ofA, rows[a], i)
    requires j < |ofB| && Shows(ranking, ofB, rows[b], j)
    ensures Rank(rows, a) != Rank(rows, b)
    ensures Rank(rows, a) < Rank(rows, b)
       <==> if rows[a].score != rows[b].score then
              if ranking == Lowest then rows[a].score < rows[b].score else rows[a].score > rows[b].score
            else if rows[a].reachedAt != rows[b].reachedAt then rows[a].reachedAt < rows[b].reachedAt
            else a.userId < b.userId
  {
    if Before(rows, a, b) {
      AheadRanksFirst(rows, a, b);
    } else {
      AheadRanksFirst(rows, b, a);
    }
  }

  /** Every submission to the board came under one ranking, as a game declares it. */
  predicate OneRanking(subs: seq<Sent>, game: string, board: string, ranking: Ranking) {
    forall x :: x in subs && x.game == game && x.board == board ==> x.ranking == ranking
  }

  /** A stored row shows its player's submissions, whatever else was submitted. */
  lemma StoredShows(subs: seq<Sent>, key: Key, ranking: Ranking) returns (i: nat)
    requires OneRanking(subs, key.game, key.board, ranking) && key in After(subs)
    ensures i < |SubmissionsOf(subs, key)| && Shows(ranking, SubmissionsOf(subs, key), After(subs)[key], i)
  {
    RowsAreFolds(subs, key, ranking);
    i := RecordShowsItsRanking(ranking, SubmissionsOf(subs, key));
  }

  /** What each ranking compares, taken from the submissions themselves. */
  predicate Counts(ranking: Ranking, subs: seq<Submission>, score: int) {
    subs != [] &&
    match ranking
    case Latest => score == subs[|subs| - 1].score
    case Lowest => (exists s :: s in subs && s.score == score) && forall s :: s in subs ==> score <= s.score
    case Highest => (exists s :: s in subs && s.score == score) && forall s :: s in subs ==> score >= s.score
    case Total => score == SumOf(subs)
  }

  /**
    Over every run of the store: the player whose latest, lowest, highest or total
    score beats the other's is ranked before it, whatever the two submitted besides.
   */
  lemma BestRanksFirst(subs: seq<Sent>, ranking: Ranking, a: Key, b: Key, scoreA: int, scoreB: int)
    requires OneRanking(subs, a.game, a.board, ranking) && a.game == b.game && a.board == b.board
    requires Counts(ranking, SubmissionsOf(subs, a), scoreA) && Counts(ranking, SubmissionsOf(subs, b), scoreB)
    requires if ranking == Lowest then scoreA < scoreB else scoreA > scoreB
    ensures a in After(subs) && b in After(subs) && Rank(After(subs), a) < Rank(After(subs), b)
  {
    ScoreIsStored(subs, ranking, a, scoreA);
    ScoreIsStored(subs, ranking, b, scoreB);
    var i := StoredShows(subs, a, ranking);
    var j := StoredShows(subs, b, ranking);
    BetterRanksFirst(After(subs), ranking, a, b, SubmissionsOf(subs, a), i, SubmissionsOf(subs, b), j);
  }

  lemma ScoreIsStored(subs: seq<Sent>, ranking: Ranking, key: Key, score: int)
    requires OneRanking(subs, key.game, key.board, ranking) && Counts(ranking, SubmissionsOf(subs, key), score)
    ensures key in After(subs) && After(subs)[key].score == score
  {
    RowsAreFolds(subs, key, ranking);
    var i := StoredShows(subs, key, ranking);
    var own := SubmissionsOf(subs, key);
    assert own[i] in own;
  }

  lemma FirstHasNoneAhead(rows: Rows, r: Key)
    requires r in rows
    ensures Rank(rows, r) == 1 <==> forall a :: a in rows ==> !CountedAhead(rows, a, r)
  {
    var ahead := set a | a in rows && CountedAhead(rows, a, r);
    if Rank(rows, r) == 1 {
      assert ahead == {};
      forall a | a in rows ensures !CountedAhead(rows, a, r) { assert a !in ahead; }
    } else {
      assert ahead != {};
      var a :| a in ahead;
    }
  }

  /** Rank 1 is held by exactly the row that no other of its board beats. */
  lemma FirstIsUnbeaten(subs: seq<Sent>, rows: Rows, ranking: Ranking, r: Key)
    requires rows == After(subs) && OneRanking(subs, r.game, r.board, ranking) && r in rows
    ensures Rank(rows, r) == 1
       <==> forall a :: a in rows && a.game == r.game && a.board == r.board && a != r ==>
              if rows[r].score != rows[a].score then
                if ranking == Lowest then rows[r].score < rows[a].score else rows[r].score > rows[a].score
              else if rows[r].reachedAt != rows[a].reachedAt then rows[r].reachedAt < rows[a].reachedAt
              else r.userId < a.userId
  {
    hide Rank, After, Shows, SubmissionsOf;
    FirstHasNoneAhead(rows, r);
    assert !CountedAhead(rows, r, r);
    forall a | a in rows && a.game == r.game && a.board == r.board && a != r
      ensures !CountedAhead(rows, a, r)
         <==> if rows[r].score != rows[a].score then
                if ranking == Lowest then rows[r].score < rows[a].score else rows[r].score > rows[a].score
              else if rows[r].reachedAt != rows[a].reachedAt then rows[r].reachedAt < rows[a].reachedAt
              else r.userId < a.userId
    {
      AheadByScore(subs, rows, ranking, a, r);
    }
  }

  lemma AheadByScore(subs: seq<Sent>, rows: Rows, ranking: Ranking, a: Key, r: Key)
    requires rows == After(subs) && OneRanking(subs, r.game, r.board, ranking) && a in rows && r in rows
    requires a.game == r.game && a.board == r.board && a != r
    ensures CountedAhead(rows, r, a) <==> !CountedAhead(rows, a, r)
    ensures CountedAhead(rows, r, a)
       <==> if rows[r].score != rows[a].score then
              if ranking == Lowest then rows[r].score < rows[a].score else rows[r].score > rows[a].score
            else if rows[r].reachedAt != rows[a].reachedAt then rows[r].reachedAt < rows[a].reachedAt
            else r.userId < a.userId
  {
    var i := StoredShows(subs, r, ranking);
    var j := StoredShows(subs, a, ranking);
  }

  /** The rows of `top` are listed best first. */
  lemma TopIsBestFirst(subs: seq<Sent>, ranking: Ranking, game: string, board: string, limit: nat, i: nat, j: nat)
    requires OneRanking(subs, game, board, ranking) && i < j < |Top(After(subs), game, board, limit)|
    ensures var rows := After(subs); var top := Top(rows, game, board, limit);
            && top[i] in rows && top[j] in rows
            && if rows[top[i]].score != rows[top[j]].score then
                 if ranking == Lowest then rows[top[i]].score < rows[top[j]].score
                 else rows[top[i]].score > rows[top[j]].score
               else if rows[top[i]].reachedAt != rows[top[j]].reachedAt then
                 rows[top[i]].reachedAt < rows[top[j]].reachedAt
               else top[i].userId < top[j].userId
  {
    var rows := After(subs);
    var keys := Board(rows, game, board);
    OrderedAscends(rows, keys, i, j);
    var a, b := Ordered(rows, keys)[i], Ordered(rows, keys)[j];
    var k := StoredShows(subs, a, ranking);
    var l := StoredShows(subs, b, ranking);
  }
}
