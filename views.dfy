/** What the page derives from the "Bias Detected" column: the personalised
    nudges, chosen by substring tests, and the bias heatmap, built by splitting
    each label string on ", ". */
module Views {
  import opened Text
  import opened Bias
  import opened Ledger

  /** The three nudge messages, with the values they show. */
  datatype Nudge =
    | AutomateSavings(day: int, amount: int)  // "Try automating $amount into savings"
    | GrowSavings(day: int)                   // "Consider small investments"
    | AllocateFunds(day: int)                 // "You may be avoiding necessary spending"

  /** The nudges one row produces: one substring test per label, in order. */
  function RowNudges(r: Row): seq<Nudge>
  {
    (if Contains(r.bias, Name(ImpulseSpending)) then [AutomateSavings(r.day, r.actual - r.planned)] else [])
    + (if Contains(r.bias, Name(PresentBias)) then [GrowSavings(r.day)] else [])
    + (if Contains(r.bias, Name(LossAversion)) then [AllocateFunds(r.day)] else [])
  }

  /** The nudges of a whole table, row after row. */
  function Nudges(rows: seq<Row>): seq<Nudge>
  {
    if rows == [] then [] else Nudges(rows[..|rows| - 1]) + RowNudges(rows[|rows| - 1])
  }

  /** The nudge that belongs to a label on a given row. */
  function NudgeFor(l: Label, r: Row): Nudge
  {
    match l
    case ImpulseSpending => AutomateSavings(r.day, r.actual - r.planned)
    case PresentBias => GrowSavings(r.day)
    case LossAversion => AllocateFunds(r.day)
  }

  /** The loop over the table's rows that emits the nudges. */
  method ShowNudges(rows: seq<Row>) returns (shown: seq<Nudge>)
    ensures shown == Nudges(rows)
  {
    shown := [];
    var i := 0;
    while i < |rows|
      invariant 0 <= i <= |rows|
      invariant shown == Nudges(rows[..i])
    {
      assert rows[..i + 1][..i] == rows[..i];
      shown := shown + RowNudges(rows[i]);
      i := i + 1;
    }
    assert rows[..|rows|] == rows;
  }

  /** The nudges of a list of labels, in its order. */
  function LabelNudges(ls: seq<Label>, r: Row): (ns: seq<Nudge>)
    ensures |ns| == |ls|
    ensures forall k :: 0 <= k < |ls| ==> ns[k] == NudgeFor(ls[k], r)
  {
    seq(|ls|, k requires 0 <= k < |ls| => NudgeFor(ls[k], r))
  }

  lemma {:induction false} LabelNudgesAppend(a: seq<Label>, b: seq<Label>, r: Row)
    ensures LabelNudges(a + b, r) == LabelNudges(a, r) + LabelNudges(b, r)
  {
  }

  lemma RowNudgesFromTests(r: Row)
    requires Contains(r.bias, Name(ImpulseSpending)) == Fires(ImpulseSpending, r.planned, r.actual, r.savings)
    requires Contains(r.bias, Name(PresentBias)) == Fires(PresentBias, r.planned, r.actual, r.savings)
    requires Contains(r.bias, Name(LossAversion)) == Fires(LossAversion, r.planned, r.actual, r.savings)
    ensures RowNudges(r) == LabelNudges(Detect(r.planned, r.actual, r.savings), r)
  {
    var i := if r.actual > r.planned then [ImpulseSpending] else [];
    var p := if r.savings > r.actual then [PresentBias] else [];
    var l := if 2 * r.actual < r.planned then [LossAversion] else [];
    assert Detect(r.planned, r.actual, r.savings) == i + p + l;
    LabelNudgesAppend(i + p, l, r);
    LabelNudgesAppend(i, p, r);
  }

  /** On a classified row the substring tests recover exactly the fired labels:
      the row's nudges are those of `Detect`, one per label, in its order. */
  lemma RowNudgesExact(r: Row)
    requires Classified(r)
    ensures RowNudges(r) == LabelNudges(Detect(r.planned, r.actual, r.savings), r)
  {
    ContainsIff(r.planned, r.actual, r.savings, ImpulseSpending);
    ContainsIff(r.planned, r.actual, r.savings, PresentBias);
    ContainsIff(r.planned, r.actual, r.savings, LossAversion);
    RowNudgesFromTests(r);
  }

  lemma RowNudgesShape(r: Row)
    ensures forall n :: n in RowNudges(r) ==> n.day == r.day
    ensures forall n :: n in RowNudges(r) && n.AutomateSavings? ==>
              n.amount == r.actual - r.planned && Contains(r.bias, Name(ImpulseSpending))
  {
  }

  /** A classified row's nudges carry its day, and its "automate savings"
      amount is strictly positive. */
  lemma RowNudgesBounded(r: Row)
    requires Classified(r)
    ensures forall n :: n in RowNudges(r) ==> n.day == r.day
    ensures forall n :: n in RowNudges(r) && n.AutomateSavings? ==> n.amount > 0
  {
    RowNudgesShape(r);
    ContainsIff(r.planned, r.actual, r.savings, ImpulseSpending);
  }

  /** Every "automate savings" nudge of a well-formed table names one of its
      days and suggests a strictly positive amount. */
  lemma {:induction false} AutomateAmountPositive(rows: seq<Row>)
    requires WellFormed(rows)
    ensures forall n :: n in Nudges(rows) && n.AutomateSavings? ==> n.amount > 0
    ensures forall n :: n in Nudges(rows) ==> 1 <= n.day <= |rows|
    decreases |rows|
  {
    if rows != [] {
      var init, last := rows[..|rows| - 1], rows[|rows| - 1];
      assert WellFormed(init);
      AutomateAmountPositive(init);
      RowNudgesBounded(last);
      assert last.day == |rows|;
      assert Nudges(rows) == Nudges(init) + RowNudges(last);
    }
  }

  /** No well-formed row is labelled both "Impulse Spending" and "Loss Aversion". */
  lemma NeverImpulseAndLoss(rows: seq<Row>, i: nat)
    requires WellFormed(rows) && i < |rows|
    ensures !(Contains(rows[i].bias, Name(ImpulseSpending))
              && Contains(rows[i].bias, Name(LossAversion)))
  {
    var r := rows[i];
    ContainsIff(r.planned, r.actual, r.savings, ImpulseSpending);
    ContainsIff(r.planned, r.actual, r.savings, LossAversion);
  }

  // ----- heatmap -----

  /** One cell of the heatmap matrix, read as token membership: 1 when the
      column's token is among the row's ", "-separated tokens, 0 otherwise.
      pandas tests whether ", " + column + ", " occurs in ", " + cell + ", ";
      the two readings agree on every label string, as no label text holds ", ". */
  function HeatmapCell(r: Row, column: string): int
  {
    if column in Split(r.bias, Separator) then 1 else 0
  }

  /** On a classified row, a label's cell is 1 exactly when its rule fires, and
      the "No Bias Detected" cell is 1 exactly when none does. */
  lemma HeatmapCellIff(r: Row, l: Label)
    requires Classified(r)
    ensures HeatmapCell(r, Name(l)) == if Fires(l, r.planned, r.actual, r.savings) then 1 else 0
    ensures HeatmapCell(r, NoBias)
         == if forall m :: !Fires(m, r.planned, r.actual, r.savings) then 1 else 0
  {
    TokenIff(r.planned, r.actual, r.savings, l);
  }

  /** The heatmap has no columns beyond the three labels and "No Bias Detected". */
  lemma HeatmapColumnsKnown(r: Row, column: string)
    requires Classified(r)
    requires HeatmapCell(r, column) == 1
    ensures column == NoBias || exists l :: column == Name(l)
  {
    SplitDetectBias(r.planned, r.actual, r.savings);
    var ls := Detect(r.planned, r.actual, r.savings);
    if ls != [] && column != NoBias {
      var k :| 0 <= k < |ls| && Names(ls)[k] == column;
      assert column == Name(ls[k]);
    }
  }
}
