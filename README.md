# EconoPsych Finance AI — verified model of the bias classifier and ledger

The dashboard keeps a table of days. Each day has a planned spend, an actual
spend, a savings goal and an impulse level. Each row is tagged with the
behavioural biases its numbers show. The page derives three things from the
table: a cumulative-savings series, personalised nudges and a bias heatmap.
This project models that logic in Dafny and proves what it promises:

- `text.dfy` (module `Text`): the Python string operations the page relies on.
  These are `", ".join`, `str.split(", ")` and the substring test
  `label in s`. The heatmap's `str.get_dummies(sep=", ")` marks a cell when
  `", " + column + ", "` occurs in `", " + cell + ", "`; the model reads this
  as "the column is one of the cell's split tokens". The two readings agree on
  every string `detect_bias` can produce, because no label text contains ", ".
  The module also proves that splitting undoes joining and when a substring
  can occur.
- `bias.dfy` (module `Bias`): `detect_bias`. Three independent threshold rules
  produce a list of labels in a fixed order. The list is rendered as a string:
  the labels joined by ", ", or "No Bias Detected" when no rule fires.
- `ledger.dfy` (module `Ledger`): the table as a class `Table` holding a
  sequence of rows. The constructor builds the seeded table. `AddToday`
  appends one row. The invariant is that the Day column is exactly 1..n, every
  row's amounts are in the widget ranges (amounts from 0, impulse level 1 to
    5), and every row's label string is its classification. The module also
  defines the cumulative-savings column.
- `views.dfy` (module `Views`): the nudge loop, which picks messages by
  substring tests on the label string, and the heatmap cells, which split the
  label string on ", ".

Amounts are modelled as `int`, the type the sidebar widgets and `randint`
produce. The loss-aversion rule `actual < planned * 0.5` is modelled as
`2 * actual < planned`, which is the same comparison over integers.

Three consequences of what the code does:

- "Add Today" has no error path, because the code validates nothing. The
  sidebar widgets only allow amounts from 0 and an impulse level of 1 to 5
  (App.py:67-70), so these ranges become the precondition `ValidInput` of
  `AddToday`.
- The classifier's output is an ordered string, so `Detect` returns a
  rank-ordered sequence. `DetectIsCanonical` proves that this sequence is the
  only one holding exactly the fired labels.
- Because the heatmap splits the string, "No Bias Detected" becomes a heatmap
  column of its own, beside the three labels (`HeatmapCellIff`).

## Model

| member | source | states |
|---|---|---|
| `Bias.Detect` | App.py:53-60 | A label is in the result exactly when its rule fires: Impulse Spending iff actual > planned, Present Bias iff goal > actual, Loss Aversion iff 2·actual < planned. The labels come in the fixed order Impulse, Present, Loss, each at most once. |
| `Bias.DetectBias` | App.py:53-61 | `detect_bias` itself: the fired labels joined by ", ", or "No Bias Detected" when the list is empty (line 61). A plain definition; its properties are proved in `NoBiasIff`, `SplitDetectBias`, `TokenIff` and `ContainsIff`. |
| `Text.Join` | App.py:61 | Python's `", ".join`. A plain definition; its properties are proved in `SplitJoin`, `JoinContainsPart` and `JoinAvoidsChar`. |
| `Text.Split` | App.py:111 | Python's `str.split(", ")`, the token reading of the heatmap's `get_dummies`. A plain definition; its properties are proved in `SplitJoin` and `SplitDetectBias`. |
| `Text.Contains` | App.py:87-91 | Python's substring test `label in s`. A plain definition; its properties are proved in `JoinContainsPart`, `ContainsFirstChar` and `ContainsIff`. |
| `Ledger.CumSum` | App.py:105 | pandas' `cumsum` (running totals from 0), with as many entries as its input. Its values are proved in `RunningTotalsAt`. |
| `Views.RowNudges` | App.py:87-92 | The three substring tests of one row, each adding its nudge. A plain definition; its properties are proved in `RowNudgesExact` and `RowNudgesBounded`. |
| `Views.Nudges` | App.py:86-92 | The nudges of every row in row order, which the loop `ShowNudges` emits. A plain definition; its properties are proved in `AutomateAmountPositive`. |
| `Views.HeatmapCell` | App.py:111 | One heatmap cell: 1 when the column is one of the row's split tokens. A plain definition; its properties are proved in `HeatmapCellIff` and `HeatmapColumnsKnown`. |
| `Bias.DetectIsCanonical` | App.py:54-61 | Any list holding exactly the fired labels, in the fixed order, equals `Detect`'s list. So the output is uniquely determined by which rules fire. |
| `Bias.RankOrderUnique` | App.py:54-60 | Two lists in the fixed label order with the same members are equal. |
| `Bias.ImpulseExcludesLoss` | App.py:55-60 | With planned spend ≥ 0, Impulse Spending and Loss Aversion never fire together. |
| `Bias.NoBiasIff` | App.py:61 | The string is "No Bias Detected" if and only if no rule fires. |
| `Bias.SplitDetectBias` | App.py:111 | Splitting the string on ", " gives exactly the fired labels' texts in order, or the single token "No Bias Detected". |
| `Bias.TokenIff` | App.py:111 | A label's text is a split token iff its rule fires. "No Bias Detected" is a token iff no rule fires. |
| `Bias.ContainsIff` | App.py:87-92 | A label's text occurs as a substring of the string iff its rule fires. No other label's text, and no separator, can produce a false match. |
| `Bias.DefaultInputClassification` | App.py:67-70 | The sidebar defaults (planned 20, actual 25, goal 15) classify as "Impulse Spending" only. |
| `Text.SplitJoin` | App.py:111 | Splitting on a separator undoes joining with it, for non-empty lists of parts that do not contain the separator's first character. |
| `Text.JoinContainsPart` | App.py:87 | Every joined part occurs as a substring of the joined string. |
| `Text.JoinAvoidsChar` | App.py:61 | A character absent from every part and from the separator is absent from the joined string. |
| `Text.ContainsFirstChar` | App.py:87 | A substring occurrence of a non-empty text puts its first character in the string. |
| `Ledger.NewRow` | App.py:73-80 | The new row has the given Day, and its label string is `detect_bias` of its own amounts. |
| `Ledger.AppendKeepsWellFormed` | App.py:72-82 | Appending a row numbered length+1, with inputs in the widget ranges, keeps the Day column 1..n and every row classified. The earlier rows are unchanged. |
| `Ledger.Table.constructor` | App.py:44-50 | The seeded table has one row per column entry, Day k+1 for entry k, each classified (App.py:63). It satisfies the invariant. |
| `Ledger.Table.AddToday` | App.py:72-82 | The table becomes the old rows plus exactly one row: Day = old length + 1, classified by `detect_bias`. The invariant is kept. |
| `Ledger.RunningTotals` | App.py:105 | The running totals (cumsum) have as many entries as the input. |
| `Ledger.RunningTotalsAt` | App.py:105 | Entry k of cumsum is the sum of the first k+1 values. |
| `Ledger.NetSavingsSplit` | App.py:105 | Σ(planned − actual) equals Σplanned − Σactual. |
| `Ledger.CumulativeSavings` | App.py:105 | The cumulative-savings column has the table's length. |
| `Ledger.CumulativeSavingsAt` | App.py:105 | Entry k equals the net saving, planned minus actual, summed over days 1..k+1. |
| `Ledger.CumulativeSavingsFirst` | App.py:105 | The first entry is day 1's planned minus actual spend. |
| `Ledger.CumulativeSavingsStep` | App.py:105 | Each entry minus the one before is that day's planned minus actual spend. |
| `Ledger.CumulativeSavingsAppend` | App.py:105 | After an append, the earlier entries are unchanged. The new last entry is the old net saving plus the new day's planned minus actual spend. |
| `Ledger.TwoDayExample` | App.py:105 | A worked example: days (20, 25, 15) and (50, 10, 5) give day 2 the label "Loss Aversion" and savings [-5, 35]. |
| `Views.ShowNudges` | App.py:86-92 | The loop over the rows emits the nudges of every row, in row order. |
| `Views.RowNudgesExact` | App.py:86-92 | On a classified row, the substring tests produce exactly one nudge per fired label, in the fixed label order. |
| `Views.RowNudgesBounded` | App.py:87-88 | A classified row's nudges carry its Day, and its "automate" amount actual − planned is strictly positive. |
| `Views.AutomateAmountPositive` | App.py:86-88 | Over a well-formed table, every nudge names a Day in 1..n, and every "automate savings" amount is strictly positive. |
| `Views.NeverImpulseAndLoss` | App.py:87-92 | No row of a well-formed table shows both the impulse nudge and the loss-aversion nudge. |
| `Views.HeatmapCellIff` | App.py:111 | A label's heatmap cell is 1 iff its rule fires. The "No Bias Detected" cell is 1 iff no rule fires. |
| `Views.HeatmapColumnsKnown` | App.py:111 | Every token in the heatmap is one of the three label texts or "No Bias Detected". |

## Left out

- Page configuration, CSS, titles, subheaders and the sidebar widgets (App.py:10-34, 66-71): UI plumbing. The widgets' ranges become the `ValidInput` precondition.
- The seeded NumPy data (App.py:37-42): a foreign random source. The constructor takes arbitrary columns within the widget ranges, which the generated values satisfy.
- The Matplotlib and Seaborn charts (App.py:95-113): foreign plotting calls. Only the heatmap's cells (which token appears in which row) are modelled. The column order pandas picks and the no-op outer `get_dummies` are not.
- The Markdown text of the nudges (App.py:88-92): presentation. Each message is one `Nudge` constructor carrying the Day and, for the impulse message, the amount it shows.
- Floating point: `planned * 0.5` is modelled by the exact integer comparison `2 * actual < planned`.
- 64-bit integers: pandas' `cumsum` can overflow int64. The model uses unbounded integers.
- Streamlit's rerun model: the page rebuilds the seeded table on every interaction, so at most one "Add Today" row exists at a time. The class allows any number of appends. Each append obeys the same contract.
- Error path of "Add Today": the code has no validation. Negative amounts are excluded by precondition, not reported as an error.
