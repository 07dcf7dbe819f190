/** The leaderboard's order and ranks (packages/core/src/competition.ts:235-246). Returns are exact numbers here. */
module Ranking {
  import opened Basics

  datatype Row = Row(handle: string, returnPct: Option<real>, flagged: bool)

  datatype Ranked = Ranked(row: Row, rank: Option<nat>)

  /** `a` belongs at or before `b`: a missing return counts as less than any. */
  predicate AtLeast(a: Row, b: Row) {
    b.returnPct.None? || (a.returnPct.Some? && a.returnPct.value >= b.returnPct.value)
  }

  ghost predicate Sorted(rows: seq<Row>) {
    forall i, j :: 0 <= i < j < |rows| ==> AtLeast(rows[i], rows[j])
  }

  predicate Counts(r: Row) {
    !r.flagged && r.returnPct.Some?
  }

  /** `Math.round(returnPct * 10000)`: the nearest whole number, halves up. */
  function Rounded(r: Row): int
    requires Counts(r)
  {
    (r.returnPct.value * 10000.0 + 0.5).Floor
  }

  /** Ranked rows whose rounded return is above `x`. */
  function Above(rows: seq<Row>, x: int): nat {
    if rows == [] then 0
    else Above(rows[..|rows| - 1], x) + (var r := rows[|rows| - 1]; if Counts(r) && Rounded(r) > x then 1 else 0)
  }

  function Counted(rows: seq<Row>): nat {
    if rows == [] then 0 else Counted(rows[..|rows| - 1]) + (if Counts(rows[|rows| - 1]) then 1 else 0)
  }

  /** The rows with one return, in order. */
  function WithReturn(rows: seq<Row>, x: Option<real>): seq<Row> {
    if rows == [] then []
    else WithReturn(rows[..|rows| - 1], x) + (if rows[|rows| - 1].returnPct == x then [rows[|rows| - 1]] else [])
  }

  // ---- The stable sort ----

  /** A row goes after every row at least as good. */
  function Insert(rows: seq<Row>, r: Row): (inserted: seq<Row>)
    ensures |inserted| == |rows| + 1
  {
    if rows == [] || AtLeast(rows[|rows| - 1], r) then rows + [r]
    else Insert(rows[..|rows| - 1], r) + [rows[|rows| - 1]]
  }

  function Sort(rows: seq<Row>): (sorted: seq<Row>)
    ensures |sorted| == |rows|
  {
    if rows == [] then [] else Insert(Sort(rows[..|rows| - 1]), rows[|rows| - 1])
  }

  lemma {:induction false} InsertAdds(rows: seq<Row>, r: Row)
    ensures multiset(Insert(rows, r)) == multiset(rows) + multiset{r}
  {
    if rows != [] {
      var front, last := rows[..|rows| - 1], rows[|rows| - 1];
      assert rows == front + [last];
      InsertAdds(front, r);
    }
  }

  lemma SortedAppended(rows: seq<Row>, last: Row)
    requires Sorted(rows) && forall x :: x in multiset(rows) ==> AtLeast(x, last)
    ensures Sorted(rows + [last])
  {
    forall i | 0 <= i < |rows| ensures AtLeast(rows[i], last) {
      assert rows[i] in multiset(rows);
    }
  }

  lemma {:induction false} InsertSorts(rows: seq<Row>, r: Row)
    requires Sorted(rows)
    ensures Sorted(Insert(rows, r))
  {
    if rows != [] && !AtLeast(rows[|rows| - 1], r) {
      var front, last := rows[..|rows| - 1], rows[|rows| - 1];
      InsertSorts(front, r);
      InsertAdds(front, r);
      SortedAppended(Insert(front, r), last);
    }
  }

  lemma AboveAppended(rows: seq<Row>, r: Row, x: int)
    ensures Above(rows + [r], x) == Above(rows, x) + (if Counts(r) && Rounded(r) > x then 1 else 0)
  {
    assert (rows + [r])[..|rows|] == rows;
  }

  lemma WithReturnAppended(rows: seq<Row>, r: Row, x: Option<real>)
    ensures WithReturn(rows + [r], x) == WithReturn(rows, x) + (if r.returnPct == x then [r] else [])
  {
    assert (rows + [r])[..|rows|] == rows;
  }

  lemma {:induction false} InsertKeepsAbove(rows: seq<Row>, r: Row, n: int)
    ensures Above(Insert(rows, r), n) == Above(rows + [r], n)
  {
    if rows != [] && !AtLeast(rows[|rows| - 1], r) {
      var front, last := rows[..|rows| - 1], rows[|rows| - 1];
      assert rows == front + [last];
      InsertKeepsAbove(front, r, n);
      AboveAppended(Insert(front, r), last, n);
      AboveAppended(front, r, n);
      AboveAppended(rows, r, n);
    }
  }

  lemma {:induction false} InsertKeepsOrder(rows: seq<Row>, r: Row, x: Option<real>)
    ensures WithReturn(Insert(rows, r), x) == WithReturn(rows + [r], x)
  {
    if rows != [] && !AtLeast(rows[|rows| - 1], r) {
      var front, last := rows[..|rows| - 1], rows[|rows| - 1];
      InsertKeepsOrder(front, r, x);
      SwapKeepsOrder(front, r, last, x);
      WithReturnAppended(Insert(front, r), last, x);
      WithReturnAppended(front + [r], last, x);
      assert rows == front + [last];
    }
  }

  /** Two rows that the sort tells apart may change places. */
  lemma SwapKeepsOrder(rows: seq<Row>, a: Row, b: Row, x: Option<real>)
    requires !AtLeast(b, a)
    ensures WithReturn(rows + [a] + [b], x) == WithReturn(rows + [b] + [a], x)
  {
    WithReturnAppended(rows, a, x);
    WithReturnAppended(rows, b, x);
    WithReturnAppended(rows + [a], b, x);
    WithReturnAppended(rows + [b], a, x);
  }

  /** The sort is the stable one: same rows, best return first, rows with equal returns in the order they came. */
  lemma {:induction false} SortIsStable(rows: seq<Row>)
    ensures Sorted(Sort(rows))
    ensures multiset(Sort(rows)) == multiset(rows)
    ensures forall x :: WithReturn(Sort(rows), x) == WithReturn(rows, x)
  {
    if rows != [] {
      var front, last := rows[..|rows| - 1], rows[|rows| - 1];
      SortIsStable(front);
      InsertSorts(Sort(front), last);
      InsertAdds(Sort(front), last);
      assert rows == front + [last];
      forall x ensures WithReturn(Sort(rows), x) == WithReturn(rows, x) {
        InsertKeepsOrder(Sort(front), last, x);
        WithReturnAppended(Sort(front), last, x);
      }
    }
  }

  lemma {:induction false} SortKeepsAbove(rows: seq<Row>, n: int)
    ensures Above(Sort(rows), n) == Above(rows, n)
  {
    if rows != [] {
      var front, last := rows[..|rows| - 1], rows[|rows| - 1];
      SortKeepsAbove(front, n);
      InsertKeepsAbove(Sort(front), last, n);
      AboveAppended(Sort(front), last, n);
    }
  }

  // ---- The ranks ----

  /** One more than the ranked rows that are strictly ahead to four decimals; none for a flagged row or one without a return. */
  function RankIn(rows: seq<Row>, r: Row): Option<nat> {
    if Counts(r) then Some(1 + Above(rows, Rounded(r))) else None
  }

  lemma RoundedFollows(a: Row, b: Row)
    requires AtLeast(a, b) && Counts(a) && Counts(b)
    ensures Rounded(a) >= Rounded(b)
  {
    var x, y := a.returnPct.value * 10000.0 + 0.5, b.returnPct.value * 10000.0 + 0.5;
    assert x >= y;
  }

  lemma {:induction false} AboveSplits(a: seq<Row>, b: seq<Row>, x: int)
    ensures Above(a + b, x) == Above(a, x) + Above(b, x)
  {
    if b == [] {
      assert a + b == a;
    } else {
      assert (a + b)[..|a + b| - 1] == a + b[..|b| - 1];
      AboveSplits(a, b[..|b| - 1], x);
    }
  }

  lemma {:induction false} NoneAbove(rows: seq<Row>, x: int)
    requires forall i :: 0 <= i < |rows| && Counts(rows[i]) ==> Rounded(rows[i]) <= x
    ensures Above(rows, x) == 0
  {
    if rows != [] {
      NoneAbove(rows[..|rows| - 1], x);
    }
  }

  lemma {:induction false} AllAbove(rows: seq<Row>, x: int)
    requires forall i :: 0 <= i < |rows| && Counts(rows[i]) ==> Rounded(rows[i]) > x
    ensures Above(rows, x) == Counted(rows)
  {
    if rows != [] {
      AllAbove(rows[..|rows| - 1], x);
    }
  }

  /** In sorted rows only those before a row can be ahead of it. */
  lemma AboveIsBefore(sorted: seq<Row>, k: nat)
    requires Sorted(sorted) && k < |sorted| && Counts(sorted[k])
    ensures Above(sorted, Rounded(sorted[k])) == Above(sorted[..k], Rounded(sorted[k]))
  {
    forall i | 0 <= i < |sorted[k..]| && Counts(sorted[k..][i]) ensures Rounded(sorted[k..][i]) <= Rounded(sorted[k]) {
      if i > 0 {
        RoundedFollows(sorted[k], sorted[k + i]);
      }
    }
    NoneAbove(sorted[k..], Rounded(sorted[k]));
    AboveSplits(sorted[..k], sorted[k..], Rounded(sorted[k]));
    assert sorted[..k] + sorted[k..] == sorted;
  }

  /** What the loop carries after `k` rows: the last rounded return among them, and the rank it got. */
  ghost predicate Carried(sorted: seq<Row>, k: nat, last: Option<int>, lastRank: nat, counted: nat)
    requires k <= |sorted|
  {
    && counted == Counted(sorted[..k])
    && (last.None? ==> forall i :: 0 <= i < k ==> !Counts(sorted[i]))
    && (last.Some? ==>
          && lastRank == 1 + Above(sorted, last.value)
          && (exists i :: 0 <= i < k && Counts(sorted[i]) && Rounded(sorted[i]) == last.value)
          && (forall i :: 0 <= i < k && Counts(sorted[i]) ==> Rounded(sorted[i]) >= last.value))
  }

  lemma NewRank(sorted: seq<Row>, k: nat, last: Option<int>, lastRank: nat, counted: nat)
    requires k < |sorted| && Sorted(sorted) && Carried(sorted, k, last, lastRank, counted) && Counts(sorted[k])
    requires last != Some(Rounded(sorted[k]))
    ensures Above(sorted, Rounded(sorted[k])) == counted
  {
    var x := Rounded(sorted[k]);
    AboveIsBefore(sorted, k);
    if last.Some? {
      var i :| 0 <= i < k && Counts(sorted[i]) && Rounded(sorted[i]) == last.value;
      RoundedFollows(sorted[i], sorted[k]);
    }
    AllAbove(sorted[..k], x);
  }

  lemma RankStep(sorted: seq<Row>, k: nat, last: Option<int>, lastRank: nat, counted: nat)
    requires k < |sorted| && Sorted(sorted) && Carried(sorted, k, last, lastRank, counted)
    ensures var r := sorted[k];
            if !Counts(r) then Carried(sorted, k + 1, last, lastRank, counted)
            else if last != Some(Rounded(r)) then
              Carried(sorted, k + 1, Some(Rounded(r)), counted + 1, counted + 1) && RankIn(sorted, r) == Some(counted + 1)
            else Carried(sorted, k + 1, last, lastRank, counted + 1) && RankIn(sorted, r) == Some(lastRank)
  {
    var r := sorted[k];
    assert sorted[..k + 1][..k] == sorted[..k];
    if Counts(r) && last != Some(Rounded(r)) {
      NewRank(sorted, k, last, lastRank, counted);
      forall i | 0 <= i < k + 1 && Counts(sorted[i]) ensures Rounded(sorted[i]) >= Rounded(r) {
        if i < k {
          RoundedFollows(sorted[i], r);
        }
      }
    }
  }

  ghost predicate RankedWith(board: seq<Ranked>, sorted: seq<Row>, rows: seq<Row>, k: nat)
    requires k <= |sorted|
  {
    |board| == k && forall i :: 0 <= i < k ==> board[i] == Ranked(sorted[i], RankIn(rows, sorted[i]))
  }

  lemma RankedAmongInput(board: seq<Ranked>, rows: seq<Row>)
    requires RankedWith(board, Sort(rows), Sort(rows), |Sort(rows)|)
    ensures RankedWith(board, Sort(rows), rows, |rows|)
  {
    forall i | 0 <= i < |rows| ensures board[i] == Ranked(Sort(rows)[i], RankIn(rows, Sort(rows)[i])) {
      if Counts(Sort(rows)[i]) {
        SortKeepsAbove(rows, Rounded(Sort(rows)[i]));
      }
    }
  }

  method RankSorted(sorted: seq<Row>) returns (board: seq<Ranked>)
    requires Sorted(sorted)
    ensures RankedWith(board, sorted, sorted, |sorted|)
  {
    board := [];
    var last: Option<int>, lastRank, counted := None, 0, 0;
    for k := 0 to |sorted|
      invariant Carried(sorted, k, last, lastRank, counted)
      invariant RankedWith(board, sorted, sorted, k)
    {
      var r := sorted[k];
      RankStep(sorted, k, last, lastRank, counted);
      if !Counts(r) {
        board := board + [Ranked(r, None)];
      } else {
        counted := counted + 1;
        var rounded := Rounded(r);
        if last != Some(rounded) {
          lastRank, last := counted, Some(rounded);
        }
        board := board + [Ranked(r, Some(lastRank))];
      }
    }
  }

  /**
    * The board: the rows best return first and stably, and for each its rank among all of them, however flagged rows lie
    * between.
    */
  method Rank(rows: seq<Row>) returns (board: seq<Ranked>)
    ensures RankedWith(board, Sort(rows), rows, |rows|)
  {
    SortIsStable(rows);
    board := RankSorted(Sort(rows));
    RankedAmongInput(board, rows);
  }

  // ---- The board, on returns and flags ----

  /** A return to four decimals, halves up. */
  function FourDecimals(x: real): (r: real)
    ensures x - 0.00005 < r <= x + 0.00005
  {
    (x * 10000.0 + 0.5).Floor as real / 10000.0
  }

  predicate Better(r: Row, x: real) {
    !r.flagged && r.returnPct.Some? && FourDecimals(r.returnPct.value) > FourDecimals(x)
  }

  /** The places of the rows that are not flagged and have a better return to four decimals. */
  ghost function Ahead(rows: seq<Row>, x: real): set<nat> {
    set j: nat | j < |rows| && Better(rows[j], x)
  }

  lemma AheadOneMore(rows: seq<Row>, x: real)
    requires rows != []
    ensures |Ahead(rows, x)| == |Ahead(rows[..|rows| - 1], x)| + (if Better(rows[|rows| - 1], x) then 1 else 0)
  {
    var n := |rows| - 1;
    var front := Ahead(rows[..n], x);
    if Better(rows[n], x) {
      assert Ahead(rows, x) == front + {n};
    } else {
      assert Ahead(rows, x) == front;
    }
  }

  lemma BetterIsAbove(r: Row, x: real)
    ensures Better(r, x) <==> Counts(r) && Rounded(r) > (x * 10000.0 + 0.5).Floor
  {
    if Counts(r) {
      var m, n := Rounded(r), (x * 10000.0 + 0.5).Floor;
      assert FourDecimals(r.returnPct.value) * 10000.0 == m as real && FourDecimals(x) * 10000.0 == n as real;
    }
  }

  lemma {:induction false} AboveIsAhead(rows: seq<Row>, x: real)
    ensures Above(rows, (x * 10000.0 + 0.5).Floor) == |Ahead(rows, x)|
  {
    if rows != [] {
      AboveIsAhead(rows[..|rows| - 1], x);
      AheadOneMore(rows, x);
      BetterIsAbove(rows[|rows| - 1], x);
    }
  }

  /** No rank for a flagged row or a missing return; for any other one more than the rows ahead of it. */
  ghost predicate RankMeans(rows: seq<Row>, r: Ranked) {
    && (r.rank.None? <==> r.row.flagged || r.row.returnPct.None?)
    && (r.rank.Some? ==> r.row.returnPct.Some? && r.rank.value == 1 + |Ahead(rows, r.row.returnPct.value)|)
  }

  lemma RankIsMeant(rows: seq<Row>, r: Row)
    ensures RankMeans(rows, Ranked(r, RankIn(rows, r)))
  {
    if Counts(r) {
      AboveIsAhead(rows, r.returnPct.value);
    }
  }

  /** Best return first, missing ones last. */
  ghost predicate BestFirst(board: seq<Ranked>) {
    forall i, j :: 0 <= i < j < |board| && board[j].row.returnPct.Some? ==>
                     board[i].row.returnPct.Some? && board[i].row.returnPct.value >= board[j].row.returnPct.value
  }

  lemma BoardIsBestFirst(rows: seq<Row>, sorted: seq<Row>, board: seq<Ranked>)
    requires Sorted(sorted) && RankedWith(board, sorted, rows, |sorted|)
    ensures BestFirst(board)
  {
    forall i, j | 0 <= i < j < |board| && board[j].row.returnPct.Some?
      ensures board[i].row.returnPct.Some? && board[i].row.returnPct.value >= board[j].row.returnPct.value
    {
      assert AtLeast(sorted[i], sorted[j]);
    }
  }

  /** The board reads: best return first, and every rank as it is meant. */
  lemma BoardMeans(rows: seq<Row>, board: seq<Ranked>)
    requires RankedWith(board, Sort(rows), rows, |rows|)
    ensures BestFirst(board) && forall i :: 0 <= i < |board| ==> RankMeans(rows, board[i])
  {
    SortIsStable(rows);
    BoardIsBestFirst(rows, Sort(rows), board);
    forall i | 0 <= i < |board| ensures RankMeans(rows, board[i]) {
      RankIsMeant(rows, Sort(rows)[i]);
    }
  }
}
