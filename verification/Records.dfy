/**
  Game records (opensnap/storage/sql.py, opensnap/core/records.py): how a
  submission changes the stored row, written as the SET lists the store hands
  to its database, and how a board ranks its rows.
 */
module Records {
  import opened Snap

  datatype Ranking = Latest | Lowest | Highest | Total

  /** `sortKey` orders every board ascending; `reachedAt` is a fixed-width timestamp, compared as a number. */
  datatype Row = Row(player: string, score: int, sortKey: int, reachedAt: int, details: string)

  // The SET lists.

  datatype Column = Player | Score | SortKey | ReachedAt | Details

  datatype Value = Number(n: int) | Text(s: string)

  /** `Stored` is `records.column`, `Excluded` is `excluded.column`. */
  datatype Expr =
    | Stored(column: Column)
    | Excluded(column: Column)
    | Plus(left: Expr, right: Expr)
    | Case(when: Condition, yes: Expr, no: Expr)

  datatype Condition =
    | Less(a: Expr, b: Expr)
    | Equal(a: Expr, b: Expr)
    | IsZero(a: Expr)

  datatype Assignment = Set(column: Column, value: Expr)

  function Read(row: Row, column: Column): Value {
    match column
    case Player => Text(row.player)
    case Score => Number(row.score)
    case SortKey => Number(row.sortKey)
    case ReachedAt => Number(row.reachedAt)
    case Details => Text(row.details)
  }

  function Written(row: Row, column: Column, v: Value): Row {
    match column
    case Player => if v.Text? then row.(player := v.s) else row
    case Score => if v.Number? then row.(score := v.n) else row
    case SortKey => if v.Number? then row.(sortKey := v.n) else row
    case ReachedAt => if v.Number? then row.(reachedAt := v.n) else row
    case Details => if v.Text? then row.(details := v.s) else row
  }

  function NumberOf(v: Value): int {
    if v.Number? then v.n else 0
  }

  function Eval(e: Expr, stored: Row, excluded: Row): Value {
    match e
    case Stored(column) => Read(stored, column)
    case Excluded(column) => Read(excluded, column)
    case Plus(left, right) => Number(NumberOf(Eval(left, stored, excluded)) + NumberOf(Eval(right, stored, excluded)))
    case Case(when, yes, no) => if Holds(when, stored, excluded) then Eval(yes, stored, excluded)
        else Eval(no, stored, excluded)
  }

  predicate Holds(c: Condition, stored: Row, excluded: Row) {
    match c
    case Less(a, b) => NumberOf(Eval(a, stored, excluded)) < NumberOf(Eval(b, stored, excluded))
    case Equal(a, b) => Eval(a, stored, excluded) == Eval(b, stored, excluded)
    case IsZero(a) => NumberOf(Eval(a, stored, excluded)) == 0
  }

  /** Each assignment sees the row as the ones before it left it. */
  function LeftToRight(row: Row, excluded: Row, sets: seq<Assignment>): Row
    decreases |sets|
  {
    if sets == [] then row
    else LeftToRight(Written(row, sets[0].column, Eval(sets[0].value, row, excluded)), excluded, sets[1..])
  }

  /** Each assignment sees the row as it was, `old`. */
  function AtOnce(row: Row, old_: Row, excluded: Row, sets: seq<Assignment>): Row
    decreases |sets|
  {
    if sets == [] then row
    else AtOnce(Written(row, sets[0].column, Eval(sets[0].value, old_, excluded)), old_, excluded, sets[1..])
  }

  const IMPROVES := Less(Excluded(SortKey), Stored(SortKey))

  function Better(column: Column): Assignment {
    Set(column, Case(IMPROVES, Excluded(column), Stored(column)))
  }

  const BEST_UPDATE := [
    Set(Player, Excluded(Player)),
    Better(Score),
    Better(ReachedAt),
    Better(Details),
    Better(SortKey)
  ]

  function RecordUpdates(ranking: Ranking): seq<Assignment> {
    match ranking
    case Latest => [
      Set(Player, Excluded(Player)),
      Set(Details, Excluded(Details)),
      Set(ReachedAt, Case(Equal(Excluded(Score), Stored(Score)), Stored(ReachedAt), Excluded(ReachedAt))),
      Set(Score, Excluded(Score)),
      Set(SortKey, Excluded(SortKey))
    ]
    case Lowest => BEST_UPDATE
    case Highest => BEST_UPDATE
    case Total => [
      Set(Player, Excluded(Player)),
      Set(Details, Excluded(Details)),
      Set(ReachedAt, Case(IsZero(Excluded(Score)), Stored(ReachedAt), Excluded(ReachedAt))),
      Set(Score, Plus(Stored(Score), Excluded(Score))),
      Set(SortKey, Plus(Stored(SortKey), Excluded(SortKey)))
    ]
  }

  function ReadsOf(e: Expr): set<Column> {
    match e
    case Stored(column) => {column}
    case Excluded(_) => {}
    case Plus(left, right) => ReadsOf(left) + ReadsOf(right)
    case Case(when, yes, no) => ConditionReads(when) + ReadsOf(yes) + ReadsOf(no)
  }

  function ConditionReads(c: Condition): set<Column> {
    match c
    case Less(a, b) => ReadsOf(a) + ReadsOf(b)
    case Equal(a, b) => ReadsOf(a) + ReadsOf(b)
    case IsZero(a) => ReadsOf(a)
  }

  /** No assignment reads a stored column that an earlier one has written. */
  predicate ReadsBeforeWrites(sets: seq<Assignment>, written: set<Column>)
    decreases |sets|
  {
    sets == []
    || (ReadsOf(sets[0].value) !! written && ReadsBeforeWrites(sets[1..], written + {sets[0].column}))
  }

  lemma {:induction false} EvalDependsOnReads(e: Expr, a: Row, b: Row, excluded: Row)
    requires forall c :: c in ReadsOf(e) ==> Read(a, c) == Read(b, c)
    ensures Eval(e, a, excluded) == Eval(e, b, excluded)
  {
    match e
    case Plus(left, right) => EvalDependsOnReads(left, a, b, excluded); EvalDependsOnReads(right, a, b, excluded);
    case Case(when, yes, no) =>
      HoldsDependsOnReads(when, a, b, excluded);
      EvalDependsOnReads(yes, a, b, excluded);
      EvalDependsOnReads(no, a, b, excluded);
    case _ =>
  }

  lemma {:induction false} HoldsDependsOnReads(c: Condition, a: Row, b: Row, excluded: Row)
    requires forall k :: k in ConditionReads(c) ==> Read(a, k) == Read(b, k)
    ensures Holds(c, a, excluded) == Holds(c, b, excluded)
  {
    match c
    case Less(x, y) => EvalDependsOnReads(x, a, b, excluded); EvalDependsOnReads(y, a, b, excluded);
    case Equal(x, y) => EvalDependsOnReads(x, a, b, excluded); EvalDependsOnReads(y, a, b, excluded);
    case IsZero(x) => EvalDependsOnReads(x, a, b, excluded);
  }

  lemma WrittenElsewhere(row: Row, column: Column, v: Value, other: Column)
    requires other != column
    ensures Read(Written(row, column, v), other) == Read(row, other)
  {
  }

  /** A list that reads before it writes means the same evaluated left to right or all at once. */
  lemma {:induction false} OrderDoesNotMatter(row: Row, old_: Row, excluded: Row, sets: seq<Assignment>,
      written: set<Column>)
    requires ReadsBeforeWrites(sets, written)
    requires forall c :: c !in written ==> Read(row, c) == Read(old_, c)
    ensures LeftToRight(row, excluded, sets) == AtOnce(row, old_, excluded, sets)
    decreases |sets|
  {
    if sets != [] {
      EvalDependsOnReads(sets[0].value, row, old_, excluded);
      var v := Eval(sets[0].value, old_, excluded);
      var next := Written(row, sets[0].column, v);
      forall c | c !in written + {sets[0].column} ensures Read(next, c) == Read(old_, c) {
        WrittenElsewhere(row, sets[0].column, v, c);
      }
      OrderDoesNotMatter(next, old_, excluded, sets[1..], written + {sets[0].column});
    }
  }

  lemma FiveRead(a: Assignment, b: Assignment, c: Assignment, d: Assignment, e: Assignment)
    requires a.column !in ReadsOf(b.value) + ReadsOf(c.value) + ReadsOf(d.value) + ReadsOf(e.value)
    requires b.column !in ReadsOf(c.value) + ReadsOf(d.value) + ReadsOf(e.value)
    requires c.column !in ReadsOf(d.value) + ReadsOf(e.value) && d.column !in ReadsOf(e.value)
    ensures ReadsBeforeWrites([a, b, c, d, e], {})
  {
    var w1, w2, w3 := {a.column}, {a.column, b.column}, {a.column, b.column, c.column};
    assert {} + {a.column} == w1 && w1 + {b.column} == w2 && w2 + {c.column} == w3;
    assert [e][1..] == [];
    assert ReadsBeforeWrites([e], w3 + {d.column});
    assert [d, e][1..] == [e];
    assert ReadsBeforeWrites([d, e], w3);
    assert [c, d, e][1..] == [d, e];
    assert ReadsBeforeWrites([c, d, e], w2);
    assert [b, c, d, e][1..] == [c, d, e];
    assert ReadsBeforeWrites([b, c, d, e], w1);
    assert [a, b, c, d, e][1..] == [b, c, d, e];
  }

  lemma BetterReads(column: Column)
    ensures ReadsOf(Better(column).value) == {SortKey, column}
  {
  }

  lemma UpdatesReadFirst(ranking: Ranking)
    ensures ReadsBeforeWrites(RecordUpdates(ranking), {})
  {
    BetterReads(Score);
    BetterReads(ReachedAt);
    BetterReads(Details);
    BetterReads(SortKey);
    var sets := RecordUpdates(ranking);
    FiveRead(sets[0], sets[1], sets[2], sets[3], sets[4]);
    assert sets == [sets[0], sets[1], sets[2], sets[3], sets[4]];
  }

  /** The store's lists mean the same in every database, whichever way it evaluates them. */
  lemma UpdatesMeanTheSame(ranking: Ranking, stored: Row, excluded: Row)
    ensures LeftToRight(stored, excluded, RecordUpdates(ranking))
            == AtOnce(stored, stored, excluded, RecordUpdates(ranking))
  {
    UpdatesReadFirst(ranking);
    OrderDoesNotMatter(stored, stored, excluded, RecordUpdates(ranking), {});
  }

  /** The order of the lists is what makes it so: with the sort key first, the two evaluations part. */
  lemma OtherOrdersDiffer()
    ensures exists row, excluded :: var sets := [Better(SortKey), Better(Score)];
              LeftToRight(row, excluded, sets) != AtOnce(row, row, excluded, sets)
  {
    var row, excluded := Row("", 5, 5, 1, ""), Row("", 3, 3, 2, "");
    var sets := [Better(SortKey), Better(Score)];
    var r1 := Written(row, SortKey, Number(3));
    assert sets[1..] == [Better(Score)] && sets[1..][1..] == [];
    assert Eval(Better(SortKey).value, row, excluded) == Number(3);
    assert Eval(Better(Score).value, r1, excluded) == Number(5);
    assert Eval(Better(Score).value, row, excluded) == Number(3);
    assert LeftToRight(row, excluded, sets) == LeftToRight(r1, excluded, sets[1..]) == LeftToRight(r1, excluded, []);
    assert AtOnce(row, row, excluded, sets) == AtOnce(r1, row, excluded, sets[1..]);
    assert AtOnce(r1, row, excluded, sets[1..]) == AtOnce(Written(r1, Score, Number(3)), row, excluded, []);
  }

  // Submissions.

  datatype Submission = Submission(player: string, score: int, at: int, details: string)

  function NewRow(ranking: Ranking, s: Submission): Row {
    Row(s.player, s.score, if ranking == Lowest then s.score else -s.score, s.at, s.details)
  }

  /** One upsert, as a database that evaluates the list left to right does it. */
  function Upserted(stored: Option<Row>, ranking: Ranking, s: Submission): Row {
    if stored.None? then NewRow(ranking, s) else LeftToRight(stored.value, NewRow(ranking, s), RecordUpdates(ranking))
  }

  /** A player's row after its submissions to one board. */
  function Folded(ranking: Ranking, subs: seq<Submission>): Option<Row> {
    if subs == [] then None else Some(Upserted(Folded(ranking, subs[..|subs| - 1]), ranking, subs[|subs| - 1]))
  }

  lemma FiveAtOnce(row: Row, excluded: Row, sets: seq<Assignment>)
    requires |sets| == 5
    ensures AtOnce(row, row, excluded, sets)
         == var r1 := Written(row, sets[0].column, Eval(sets[0].value, row, excluded));
            var r2 := Written(r1, sets[1].column, Eval(sets[1].value, row, excluded));
            var r3 := Written(r2, sets[2].column, Eval(sets[2].value, row, excluded));
            var r4 := Written(r3, sets[3].column, Eval(sets[3].value, row, excluded));
            Written(r4, sets[4].column, Eval(sets[4].value, row, excluded))
  {
    var r1 := Written(row, sets[0].column, Eval(sets[0].value, row, excluded));
    var r2 := Written(r1, sets[1].column, Eval(sets[1].value, row, excluded));
    var r3 := Written(r2, sets[2].column, Eval(sets[2].value, row, excluded));
    var r4 := Written(r3, sets[3].column, Eval(sets[3].value, row, excluded));
    assert sets[1..][1..] == sets[2..] && sets[2..][1..] == sets[3..] && sets[3..][1..] == sets[4..]
        && sets[4..][1..] == [];
    assert AtOnce(row, row, excluded, sets) == AtOnce(r1, row, excluded, sets[1..]);
    assert AtOnce(r1, row, excluded, sets[1..]) == AtOnce(r2, row, excluded, sets[2..]);
    assert AtOnce(r2, row, excluded, sets[2..]) == AtOnce(r3, row, excluded, sets[3..]);
    assert AtOnce(r3, row, excluded, sets[3..]) == AtOnce(r4, row, excluded, sets[4..]);
    var r5 := Written(r4, sets[4].column, Eval(sets[4].value, row, excluded));
    assert AtOnce(r4, row, excluded, sets[4..]) == AtOnce(r5, row, excluded, []);
  }

  /** What an update does to a stored row, column by column. */
  lemma UpdatedRow(ranking: Ranking, row: Row, s: Submission)
    ensures var new_ := NewRow(ranking, s);
            Upserted(Some(row), ranking, s)
            == match ranking
               case Latest => new_.(reachedAt := if s.score == row.score then row.reachedAt else s.at)
               case Total =>
                 Row(s.player, row.score + s.score, row.sortKey - s.score,
                     if s.score == 0 then row.reachedAt else s.at, s.details)
               case _ => if new_.sortKey < row.sortKey then new_ else row.(player := s.player)
  {
    var new_ := NewRow(ranking, s);
    UpdatesMeanTheSame(ranking, row, new_);
    var sets := RecordUpdates(ranking);
    FiveAtOnce(row, new_, sets);
    match ranking
    case Latest => EvalCase(sets[2].value, row, new_);
    case Total => EvalCase(sets[2].value, row, new_);
    case _ =>
      EvalCase(sets[1].value, row, new_);
      EvalCase(sets[2].value, row, new_);
      EvalCase(sets[3].value, row, new_);
      EvalCase(sets[4].value, row, new_);
  }

  lemma EvalCase(e: Expr, row: Row, excluded: Row)
    requires e.Case?
    ensures Eval(e, row, excluded) == if Holds(e.when, row, excluded) then Eval(e.yes, row, excluded)
            else Eval(e.no, row, excluded)
  {
  }

  function SumOf(subs: seq<Submission>): int {
    if subs == [] then 0 else SumOf(subs[..|subs| - 1]) + subs[|subs| - 1].score
  }

  /** The row shows what the ranking promises, reached by submission `i`. */
  ghost predicate Shows(ranking: Ranking, subs: seq<Submission>, row: Row, i: nat)
    requires i < |subs|
  {
    var last := subs[|subs| - 1];
    && row.player == last.player && row.reachedAt == subs[i].at
    && row.sortKey == (if ranking == Lowest then row.score else -row.score)
    && match ranking
       case Latest =>
         && row.score == last.score && row.details == last.details
         && (forall j :: i <= j < |subs| ==> subs[j].score == row.score) && (i > 0 ==> subs[i - 1].score != row.score)
       case Lowest =>
         && row.score == subs[i].score && row.details == subs[i].details
         && (forall j :: 0 <= j < |subs| ==> row.score <= subs[j].score)
             && (forall j :: 0 <= j < i ==> row.score < subs[j].score)
       case Highest =>
         && row.score == subs[i].score && row.details == subs[i].details
         && (forall j :: 0 <= j < |subs| ==> row.score >= subs[j].score)
             && (forall j :: 0 <= j < i ==> row.score > subs[j].score)
       case Total =>
         && row.score == SumOf(subs) && row.details == last.details
         && (forall j :: i < j < |subs| ==> subs[j].score == 0) && (i > 0 ==> subs[i].score != 0)
  }

  /**
    A player's record is the fold its board promises: the latest, lowest,
    highest or total score, the sort key that ranks it, and the submission that
    first reached the score it shows.
   */
  lemma {:induction false} RecordShowsItsRanking(ranking: Ranking, subs: seq<Submission>) returns (i: nat)
    requires subs != []
    ensures i < |subs| && Shows(ranking, subs, Folded(ranking, subs).value, i)
  {
    var n := |subs| - 1;
    if n == 0 {
      i := 0;
      assert SumOf(subs[..0]) == 0;
    } else {
      var k := RecordShowsItsRanking(ranking, subs[..n]);
      i := NextShown(ranking, subs, Folded(ranking, subs[..n]).value, k);
    }
  }

  lemma NextShown(ranking: Ranking, subs: seq<Submission>, row: Row, k: nat) returns (i: nat)
    requires |subs| >= 2 && k < |subs| - 1 && Shows(ranking, subs[..|subs| - 1], row, k)
    ensures i < |subs| && Shows(ranking, subs, Upserted(Some(row), ranking, subs[|subs| - 1]), i)
  {
    UpdatedRow(ranking, row, subs[|subs| - 1]);
    var row' := Upserted(Some(row), ranking, subs[|subs| - 1]);
    match ranking
    case Latest => i := NextLatest(subs, row, row', k);
    case Lowest => i := NextBest(Lowest, subs, row, row', k);
    case Highest => i := NextBest(Highest, subs, row, row', k);
    case Total => i := NextTotal(subs, row, row', k);
  }

  lemma NextLatest(subs: seq<Submission>, row: Row, row': Row, k: nat) returns (i: nat)
    requires |subs| >= 2 && k < |subs| - 1 && Shows(Latest, subs[..|subs| - 1], row, k)
    requires var s := subs[|subs| - 1];
             row' == NewRow(Latest, s).(reachedAt := if s.score == row.score then row.reachedAt else s.at)
    ensures i < |subs| && Shows(Latest, subs, row', i)
  {
    var n := |subs| - 1;
    assert subs[..n][n - 1] == subs[n - 1];
    i := if subs[n].score == row.score then k else n;
  }

  lemma NextBest(ranking: Ranking, subs: seq<Submission>, row: Row, row': Row, k: nat) returns (i: nat)
    requires ranking == Lowest || ranking == Highest
    requires |subs| >= 2 && k < |subs| - 1 && Shows(ranking, subs[..|subs| - 1], row, k)
    requires var new_ := NewRow(ranking, subs[|subs| - 1]);
             row' == if new_.sortKey < row.sortKey then new_ else row.(player := new_.player)
    ensures i < |subs| && Shows(ranking, subs, row', i)
  {
    var n := |subs| - 1;
    assert forall j :: 0 <= j < n ==> subs[..n][j] == subs[j];
    i := if NewRow(ranking, subs[n]).sortKey < row.sortKey then n else k;
  }

  lemma NextTotal(subs: seq<Submission>, row: Row, row': Row, k: nat) returns (i: nat)
    requires |subs| >= 2 && k < |subs| - 1 && Shows(Total, subs[..|subs| - 1], row, k)
    requires var s := subs[|subs| - 1];
             row' == Row(s.player, row.score + s.score, row.sortKey - s.score,
                         if s.score == 0 then row.reachedAt else s.at, s.details)
    ensures i < |subs| && Shows(Total, subs, row', i)
  {
    var n := |subs| - 1;
    assert forall j :: 0 <= j < n ==> subs[..n][j] == subs[j];
    i := if subs[n].score == 0 then k else n;
  }

  /** The promise leaves no choice: two rows that keep it for the same submissions are equal. */
  lemma ShowsIsExact(ranking: Ranking, subs: seq<Submission>, row: Row, i: nat, other: Row, k: nat)
    requires i < |subs| && k < |subs| && Shows(ranking, subs, row, i) && Shows(ranking, subs, other, k)
    ensures row == other && i == k
  {
  }
}
