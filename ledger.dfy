/** The day-by-day table: rows numbered 1..n, each classified when it is
    created, growing only by "Add Today", and its cumulative-savings column. */
module Ledger {
  import opened Bias

  /** One row of the table; `bias` is the "Bias Detected" column. */
  datatype Row = Row(day: int, planned: int, actual: int, savings: int, impulse: int, bias: string)

  /** The ranges the input widgets enforce: amounts from 0 up, impulse 1 to 5. */
  predicate ValidInput(planned: int, actual: int, savings: int, impulse: int)
  {
    planned >= 0 && actual >= 0 && savings >= 0 && 1 <= impulse <= 5
  }

  /** A row for day `day`, classified by `detect_bias` as it is built. */
  function NewRow(day: int, planned: int, actual: int, savings: int, impulse: int): (r: Row)
    ensures r.day == day
    ensures r.bias == DetectBias(r.planned, r.actual, r.savings)
  {
    Row(day, planned, actual, savings, impulse, DetectBias(planned, actual, savings))
  }

  /** A row whose label string is `detect_bias` of its own amounts. */
  predicate Classified(r: Row)
  {
    r.bias == DetectBias(r.planned, r.actual, r.savings)
  }

  /** A row whose inputs are in range and whose label string is its classification. */
  predicate RowConsistent(r: Row)
  {
    ValidInput(r.planned, r.actual, r.savings, r.impulse) && Classified(r)
  }

  /** The table invariant: the Day column is exactly 1..n and every row is consistent. */
  predicate WellFormed(rows: seq<Row>)
  {
    forall i :: 0 <= i < |rows| ==> rows[i].day == i + 1 && RowConsistent(rows[i])
  }

  /** Adding a consistent row for day n + 1 keeps the table well formed and
      leaves the first n rows as they were. */
  lemma AppendKeepsWellFormed(rows: seq<Row>, planned: int, actual: int, savings: int, impulse: int)
    requires WellFormed(rows)
    requires ValidInput(planned, actual, savings, impulse)
    ensures WellFormed(rows + [NewRow(|rows| + 1, planned, actual, savings, impulse)])
    ensures (rows + [NewRow(|rows| + 1, planned, actual, savings, impulse)])[..|rows|] == rows
  {
  }

  /** The session's table, which "Add Today" rebinds to a longer one. */
  class Table {
    var rows: seq<Row>

    ghost predicate Valid()
      reads this
    {
      WellFormed(rows)
    }

    /** The seeded table: day k + 1 holds the k-th value of each column, and
        every row is classified. */
    constructor (planned: seq<int>, actual: seq<int>, savings: seq<int>, impulse: seq<int>)
      requires |actual| == |planned| && |savings| == |planned| && |impulse| == |planned|
      requires forall k :: 0 <= k < |planned| ==> ValidInput(planned[k], actual[k], savings[k], impulse[k])
      ensures Valid()
      ensures |rows| == |planned|
      ensures forall k :: 0 <= k < |rows| ==>
                rows[k] == NewRow(k + 1, planned[k], actual[k], savings[k], impulse[k])
    {
      rows := seq(|planned|, k requires 0 <= k < |planned| =>
                NewRow(k + 1, planned[k], actual[k], savings[k], impulse[k]));
    }

    /** "Add Today": one more row, numbered after the last, classified, and
        nothing before it changed. */
    method AddToday(planned: int, actual: int, savings: int, impulse: int)
      requires Valid()
      requires ValidInput(planned, actual, savings, impulse)
      modifies this
      ensures Valid()
      ensures rows == old(rows) + [NewRow(|old(rows)| + 1, planned, actual, savings, impulse)]
    {
      AppendKeepsWellFormed(rows, planned, actual, savings, impulse);
      rows := rows + [NewRow(|rows| + 1, planned, actual, savings, impulse)];
    }
  }

  // ----- cumulative savings -----

  function Sum(xs: seq<int>): int
  {
    if xs == [] then 0 else xs[0] + Sum(xs[1..])
  }

  /** pandas' `cumsum`, started from `acc`: the running totals of `xs`. */
  function RunningTotals(acc: int, xs: seq<int>): (r: seq<int>)
    ensures |r| == |xs|
    decreases |xs|
  {
    if xs == [] then [] else [acc + xs[0]] + RunningTotals(acc + xs[0], xs[1..])
  }

  function CumSum(xs: seq<int>): (r: seq<int>)
    ensures |r| == |xs|
  {
    RunningTotals(0, xs)
  }

  function PlannedColumn(rows: seq<Row>): (r: seq<int>)
    ensures |r| == |rows|
    ensures forall k :: 0 <= k < |rows| ==> r[k] == rows[k].planned
  {
    seq(|rows|, k requires 0 <= k < |rows| => rows[k].planned)
  }

  function ActualColumn(rows: seq<Row>): (r: seq<int>)
    ensures |r| == |rows|
    ensures forall k :: 0 <= k < |rows| ==> r[k] == rows[k].actual
  {
    seq(|rows|, k requires 0 <= k < |rows| => rows[k].actual)
  }

  /** The "Cumulative Savings" column: cumsum of planned minus cumsum of actual. */
  function CumulativeSavings(rows: seq<Row>): (r: seq<int>)
    ensures |r| == |rows|
  {
    var p := CumSum(PlannedColumn(rows));
    var a := CumSum(ActualColumn(rows));
    seq(|rows|, k requires 0 <= k < |rows| => p[k] - a[k])
  }

  /** Net saving over a stretch of days: planned minus actual, summed. */
  function NetSavings(rows: seq<Row>): int
  {
    if rows == [] then 0 else rows[0].planned - rows[0].actual + NetSavings(rows[1..])
  }

  /** Entry k of the running totals is the start plus the sum of the first k + 1 values. */
  lemma {:induction false} RunningTotalsAt(acc: int, xs: seq<int>, k: nat)
    requires k < |xs|
    ensures RunningTotals(acc, xs)[k] == acc + Sum(xs[..k + 1])
    decreases k
  {
    if k == 0 {
      assert xs[..1][1..] == [];
    } else {
      RunningTotalsAt(acc + xs[0], xs[1..], k - 1);
      assert xs[..k + 1][1..] == xs[1..][..k];
    }
  }

  lemma {:induction false} NetSavingsSplit(rows: seq<Row>)
    ensures NetSavings(rows) == Sum(PlannedColumn(rows)) - Sum(ActualColumn(rows))
    decreases |rows|
  {
    if rows != [] {
      NetSavingsSplit(rows[1..]);
      assert PlannedColumn(rows)[1..] == PlannedColumn(rows[1..]);
      assert ActualColumn(rows)[1..] == ActualColumn(rows[1..]);
    }
  }

  /** Entry k is the net saving of days 1..k+1. */
  lemma CumulativeSavingsAt(rows: seq<Row>, k: nat)
    requires k < |rows|
    ensures CumulativeSavings(rows)[k] == NetSavings(rows[..k + 1])
  {
    RunningTotalsAt(0, PlannedColumn(rows), k);
    RunningTotalsAt(0, ActualColumn(rows), k);
    NetSavingsSplit(rows[..k + 1]);
    assert PlannedColumn(rows)[..k + 1] == PlannedColumn(rows[..k + 1]);
    assert ActualColumn(rows)[..k + 1] == ActualColumn(rows[..k + 1]);
  }

  lemma {:induction false} NetSavingsAppend(rows: seq<Row>, r: Row)
    ensures NetSavings(rows + [r]) == NetSavings(rows) + r.planned - r.actual
    decreases |rows|
  {
    if rows == [] {
      assert ([] + [r])[1..] == [];
    } else {
      assert (rows + [r])[1..] == rows[1..] + [r];
      NetSavingsAppend(rows[1..], r);
    }
  }

  /** The first entry is the first day's planned minus actual spend. */
  lemma CumulativeSavingsFirst(rows: seq<Row>)
    requires |rows| > 0
    ensures CumulativeSavings(rows)[0] == rows[0].planned - rows[0].actual
  {
    CumulativeSavingsAt(rows, 0);
    assert rows[..1][1..] == [];
  }

  /** Each later entry adds that day's planned minus actual spend to the one before. */
  lemma CumulativeSavingsStep(rows: seq<Row>, k: nat)
    requires 0 < k < |rows|
    ensures CumulativeSavings(rows)[k] - CumulativeSavings(rows)[k - 1]
         == rows[k].planned - rows[k].actual
  {
    CumulativeSavingsAt(rows, k);
    CumulativeSavingsAt(rows, k - 1);
    assert rows[..k + 1] == rows[..k] + [rows[k]];
    NetSavingsAppend(rows[..k], rows[k]);
  }

  /** "Add Today" leaves the earlier entries as they were and ends the column
      with the net saving of the whole table. */
  lemma CumulativeSavingsAppend(rows: seq<Row>, r: Row)
    ensures CumulativeSavings(rows + [r])
         == CumulativeSavings(rows) + [NetSavings(rows) + r.planned - r.actual]
  {
    var longer := rows + [r];
    forall k | 0 <= k < |rows|
      ensures CumulativeSavings(longer)[k] == CumulativeSavings(rows)[k]
    {
      CumulativeSavingsAt(longer, k);
      CumulativeSavingsAt(rows, k);
      assert longer[..k + 1] == rows[..k + 1];
    }
    CumulativeSavingsAt(longer, |rows|);
    assert longer[..|rows| + 1] == longer;
    NetSavingsAppend(rows, r);
  }

  /** Adding the row planned 50 / actual 10 / goal 5 to a one-day table
      planned 20 / actual 25 / goal 15: day 2 shows loss aversion only, and the
      savings column reads -5 then 35. */
  lemma TwoDayExample()
    ensures var t := [NewRow(1, 20, 25, 15, 3)] + [NewRow(2, 50, 10, 5, 1)];
            t[1].bias == "Loss Aversion" && CumulativeSavings(t) == [-5, 35]
  {
    var t := [NewRow(1, 20, 25, 15, 3)] + [NewRow(2, 50, 10, 5, 1)];
    CumulativeSavingsFirst(t);
    CumulativeSavingsStep(t, 1);
  }
}
