/** The bias classifier: three independent threshold rules over one day's
    planned spend, actual spend and savings goal, reported as a
    comma-separated string of labels or "No Bias Detected". */
module Bias {
  import opened Text

  datatype Label = ImpulseSpending | PresentBias | LossAversion

  /** The text of each label as it appears in the "Bias Detected" column. */
  function Name(l: Label): string
  {
    match l
    case ImpulseSpending => "Impulse Spending"
    case PresentBias => "Present Bias"
    case LossAversion => "Loss Aversion"
  }

  /** The fixed order in which the rules are tried and their labels listed. */
  function Rank(l: Label): nat
  {
    match l
    case ImpulseSpending => 0
    case PresentBias => 1
    case LossAversion => 2
  }

  const NoBias: string := "No Bias Detected"
  const Separator: string := ", "

  /** The rule behind each label. Loss aversion compares `actual` with half of
      `planned`; over integers `actual < planned * 0.5` is `2 * actual < planned`. */
  predicate Fires(l: Label, planned: int, actual: int, savings: int)
  {
    match l
    case ImpulseSpending => actual > planned
    case PresentBias => savings > actual
    case LossAversion => 2 * actual < planned
  }

  /** Strictly increasing in rank: the fixed order, each label at most once. */
  predicate InRankOrder(ls: seq<Label>)
  {
    forall i, j :: 0 <= i < j < |ls| ==> Rank(ls[i]) < Rank(ls[j])
  }

  /** The list of labels `detect_bias` builds, one rule after the other. */
  function Detect(planned: int, actual: int, savings: int): (r: seq<Label>)
    ensures forall l :: l in r <==> Fires(l, planned, actual, savings)
    ensures InRankOrder(r)
  {
    (if actual > planned then [ImpulseSpending] else [])
    + (if savings > actual then [PresentBias] else [])
    + (if 2 * actual < planned then [LossAversion] else [])
  }

  function Names(ls: seq<Label>): (r: seq<string>)
    ensures |r| == |ls|
    ensures forall k :: 0 <= k < |ls| ==> r[k] == Name(ls[k])
  {
    seq(|ls|, k requires 0 <= k < |ls| => Name(ls[k]))
  }

  /** `detect_bias`: the fired labels joined by ", ", or "No Bias Detected". */
  function DetectBias(planned: int, actual: int, savings: int): string
  {
    var ls := Detect(planned, actual, savings);
    if ls == [] then NoBias else Join(Names(ls), Separator)
  }

  // ----- the label list -----

  /** Two rank-ordered lists with the same members are the same list. */
  lemma {:induction false} RankOrderUnique(s: seq<Label>, t: seq<Label>)
    requires InRankOrder(s) && InRankOrder(t)
    requires forall l :: l in s <==> l in t
    ensures s == t
    decreases |s|
  {
    assert t != [] ==> t[0] in t;
    assert s != [] ==> s[0] in s;
    if s != [] && t != [] {
      assert Rank(s[0]) <= Rank(t[0]) by {
        var i :| 0 <= i < |s| && s[i] == t[0];
      }
      assert Rank(t[0]) <= Rank(s[0]) by {
        var j :| 0 <= j < |t| && t[j] == s[0];
      }
      assert s[0] == t[0];
      forall l
        ensures l in s[1..] <==> l in t[1..]
      {
        if l in s[1..] {
          var i :| 0 <= i < |s[1..]| && s[1..][i] == l;
          assert Rank(s[0]) < Rank(s[i + 1]);
          assert s[i + 1] == l && l in s;
          var j :| 0 <= j < |t| && t[j] == l;
          assert j != 0;
          assert t[1..][j - 1] == l;
        }
        if l in t[1..] {
          var j :| 0 <= j < |t[1..]| && t[1..][j] == l;
          assert Rank(t[0]) < Rank(t[j + 1]);
          assert t[j + 1] == l && l in t;
          var i :| 0 <= i < |s| && s[i] == l;
          assert i != 0;
          assert s[1..][i - 1] == l;
        }
      }
      RankOrderUnique(s[1..], t[1..]);
      assert s == [s[0]] + s[1..];
      assert t == [t[0]] + t[1..];
    }
  }

  /** `Detect` is the one list of exactly the fired labels, in the fixed order,
      each at most once. */
  lemma DetectIsCanonical(planned: int, actual: int, savings: int, ls: seq<Label>)
    requires forall l :: l in ls <==> Fires(l, planned, actual, savings)
    requires InRankOrder(ls)
    ensures ls == Detect(planned, actual, savings)
  {
    RankOrderUnique(ls, Detect(planned, actual, savings));
  }

  /** With a non-negative plan, overspending and spending under half the plan
      exclude each other. */
  lemma ImpulseExcludesLoss(planned: int, actual: int, savings: int)
    requires planned >= 0
    ensures !(ImpulseSpending in Detect(planned, actual, savings)
              && LossAversion in Detect(planned, actual, savings))
  {
  }

  // ----- the label string -----

  /** The character that only the label's own text (among all texts the
      column can hold, and the separator) contains. */
  function Initial(l: Label): char
  {
    match l
    case ImpulseSpending => 'I'
    case PresentBias => 'P'
    case LossAversion => 'L'
  }

  lemma InitialIsDistinctive(l: Label, m: Label)
    ensures Name(l)[0] == Initial(l)
    ensures l != m ==> Initial(l) !in Name(m)
    ensures Initial(l) !in NoBias && Initial(l) !in Separator
  {
  }

  lemma NamesAvoidComma(ls: seq<Label>)
    ensures forall k :: 0 <= k < |Names(ls)| ==> Separator[0] !in Names(ls)[k]
  {
    forall k | 0 <= k < |ls| ensures Separator[0] !in Name(ls[k]) {
      match ls[k]
      case ImpulseSpending =>
      case PresentBias =>
      case LossAversion =>
    }
  }

  /** The string is "No Bias Detected" exactly when no rule fires. */
  lemma NoBiasIff(planned: int, actual: int, savings: int)
    ensures DetectBias(planned, actual, savings) == NoBias
        <==> forall l :: !Fires(l, planned, actual, savings)
  {
    var ls := Detect(planned, actual, savings);
    if ls != [] {
      assert ls[0] in ls;
      InitialIsDistinctive(ls[0], ls[0]);
      JoinFirstChar(Names(ls), Separator);
      assert DetectBias(planned, actual, savings)[0] == Initial(ls[0]) != NoBias[0];
    }
  }

  /** Splitting the string on ", " (the heatmap) gives back exactly the fired
      labels in order, or the single token "No Bias Detected". */
  lemma SplitDetectBias(planned: int, actual: int, savings: int)
    ensures Split(DetectBias(planned, actual, savings), Separator)
         == Tokens(Detect(planned, actual, savings))
  {
    var ls := Detect(planned, actual, savings);
    if ls == [] {
      SplitWhole(NoBias, Separator);
    } else {
      NamesAvoidComma(ls);
      SplitJoin(Names(ls), Separator);
    }
  }

  /** The tokens a label list is written as: its names, or "No Bias Detected"
      for the empty list. */
  function Tokens(ls: seq<Label>): seq<string>
  {
    if ls == [] then [NoBias] else Names(ls)
  }

  lemma TokensIff(ls: seq<Label>, l: Label)
    ensures Name(l) in Tokens(ls) <==> l in ls
    ensures NoBias in Tokens(ls) <==> ls == []
  {
    InitialIsDistinctive(l, l);
    forall m ensures Name(l) == Name(m) ==> l == m {
      InitialIsDistinctive(l, m);
    }
    forall m ensures Name(m) != NoBias {
      InitialIsDistinctive(m, m);
    }
    if ls != [] {
      assert NoBias !in Names(ls);
    }
    if Name(l) in Names(ls) {
      var k :| 0 <= k < |ls| && Names(ls)[k] == Name(l);
      assert ls[k] == l;
    }
    if l in ls {
      var k :| 0 <= k < |ls| && ls[k] == l;
      assert Names(ls)[k] == Name(l);
    }
  }

  /** A label's text is among the split tokens exactly when its rule fires, and
      "No Bias Detected" is a token exactly when none does. */
  lemma TokenIff(planned: int, actual: int, savings: int, l: Label)
    ensures Name(l) in Split(DetectBias(planned, actual, savings), Separator)
        <==> Fires(l, planned, actual, savings)
    ensures NoBias in Split(DetectBias(planned, actual, savings), Separator)
        <==> forall m :: !Fires(m, planned, actual, savings)
  {
    var ls := Detect(planned, actual, savings);
    SplitDetectBias(planned, actual, savings);
    TokensIff(ls, l);
    if ls != [] {
      assert Fires(ls[0], planned, actual, savings);
    }
  }

  /** A label's text occurs as a substring (the nudge tests) exactly when its
      rule fires. */
  lemma ContainsIff(planned: int, actual: int, savings: int, l: Label)
    ensures Contains(DetectBias(planned, actual, savings), Name(l))
        <==> Fires(l, planned, actual, savings)
  {
    var ls := Detect(planned, actual, savings);
    var s := DetectBias(planned, actual, savings);
    InitialIsDistinctive(l, l);
    if l in ls {
      var k :| 0 <= k < |ls| && ls[k] == l;
      JoinContainsPart(Names(ls), Separator, k);
    } else if Contains(s, Name(l)) {
      ContainsFirstChar(s, Name(l));
      if ls != [] {
        forall k | 0 <= k < |Names(ls)| ensures Initial(l) !in Names(ls)[k] {
          InitialIsDistinctive(l, ls[k]);
        }
        JoinAvoidsChar(Names(ls), Separator, Initial(l));
      }
      assert false;
    }
  }

  /** The sidebar's default inputs (planned 20, actual 25, goal 15) are
      classified as impulse spending only. */
  lemma DefaultInputClassification()
    ensures Detect(20, 25, 15) == [ImpulseSpending]
    ensures DetectBias(20, 25, 15) == "Impulse Spending"
  {
  }
}
