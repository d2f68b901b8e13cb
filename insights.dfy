/**
 * The insight generator: threshold rules over a monthly summary, checked in a fixed order
 * (expense ratio, negative savings, savings rate, top category), each adding at most one insight.
 * The message texts are determined by the kind; the percentage printed for the top category is
 * kept as the exact ratio.
 */
module Insights {
  import opened Categories
  import opened Analytics

  datatype Severity = Alert | Warning | Info

  datatype InsightKind =
    | VeryCloseToIncome
    | HighExpenseRatio
    | SpendingMoreThanEarned
    | LowSavingsRate
    | GoodSavingsRate
    | CategoryHeavy(name: string, ratio: real)

  datatype Insight = Insight(kind: InsightKind, severity: Severity)

  /** `(part / whole) * 100`. */
  function Percent(part: real, whole: real): (p: real)
    requires whole > 0.0
    ensures p * whole == part * 100.0
  {
    (part / whole) * 100.0
  }

  /** Comparing a percentage with a threshold is comparing the cross products. */
  lemma PercentVersus(part: real, whole: real, t: real)
    requires whole > 0.0
    ensures Percent(part, whole) > t <==> part * 100.0 > t * whole
    ensures Percent(part, whole) >= t <==> part * 100.0 >= t * whole
  {
    var p := Percent(part, whole);
    if p > t {
      assert (p - t) * whole > 0.0;
    } else {
      assert (t - p) * whole >= 0.0;
    }
    if p >= t {
      assert (p - t) * whole >= 0.0;
    } else {
      assert (t - p) * whole > 0.0;
    }
  }

  /** Insight 1: the expense-to-income ratio, only for a positive income. */
  function ExpenseRatioInsights(s: MonthlySummary): seq<Insight> {
    if s.totalIncome > 0.0 then
      var ratio := Percent(s.totalExpense, s.totalIncome);
      if ratio > 90.0 then [Insight(VeryCloseToIncome, Alert)]
      else if ratio > 80.0 then [Insight(HighExpenseRatio, Warning)]
      else []
    else []
  }

  /** Insight 2: negative savings. */
  function NegativeSavingsInsights(s: MonthlySummary): seq<Insight> {
    if s.savings < 0.0 then [Insight(SpendingMoreThanEarned, Alert)] else []
  }

  /** Insight 3: the savings rate, only for a positive income. */
  function SavingsRateInsights(s: MonthlySummary): seq<Insight> {
    if s.totalIncome > 0.0 then
      var ratio := Percent(s.savings, s.totalIncome);
      if ratio < 10.0 && ratio >= 0.0 then [Insight(LowSavingsRate, Warning)]
      else if ratio >= 20.0 then [Insight(GoodSavingsRate, Info)]
      else []
    else []
  }

  /** Insight 4: the first (largest) category's share of a positive expense total. */
  function CategoryInsights(s: MonthlySummary): seq<Insight> {
    if |s.topCategories| > 0 && s.totalExpense > 0.0 then
      var top := s.topCategories[0];
      var ratio := Percent(top.amount, s.totalExpense);
      if ratio > 40.0 then [Insight(CategoryHeavy(top.name, ratio), Info)] else []
    else []
  }

  function AllInsights(s: MonthlySummary): seq<Insight> {
    ExpenseRatioInsights(s) + NegativeSavingsInsights(s) + SavingsRateInsights(s) + CategoryInsights(s)
  }

  /** `generate_insights`: the four checks in order, each appending at most one insight. */
  method GenerateInsights(s: MonthlySummary) returns (insights: seq<Insight>)
    ensures insights == AllInsights(s)
  {
    insights := [];
    if s.totalIncome > 0.0 {
      var expenseRatio := Percent(s.totalExpense, s.totalIncome);
      if expenseRatio > 90.0 {
        insights := insights + [Insight(VeryCloseToIncome, Alert)];
      } else if expenseRatio > 80.0 {
        insights := insights + [Insight(HighExpenseRatio, Warning)];
      }
    }
    if s.savings < 0.0 {
      insights := insights + [Insight(SpendingMoreThanEarned, Alert)];
    }
    if s.totalIncome > 0.0 {
      var savingsRatio := Percent(s.savings, s.totalIncome);
      if savingsRatio < 10.0 && savingsRatio >= 0.0 {
        insights := insights + [Insight(LowSavingsRate, Warning)];
      } else if savingsRatio >= 20.0 {
        insights := insights + [Insight(GoodSavingsRate, Info)];
      }
    }
    if |s.topCategories| > 0 {
      var top := s.topCategories[0];
      if s.totalExpense > 0.0 {
        var categoryRatio := Percent(top.amount, s.totalExpense);
        if categoryRatio > 40.0 {
          insights := insights + [Insight(CategoryHeavy(top.name, categoryRatio), Info)];
        }
      }
    }
  }

  predicate Mentions(ins: seq<Insight>, k: InsightKind) {
    exists i :: 0 <= i < |ins| && ins[i].kind == k
  }

  predicate MentionsCategory(ins: seq<Insight>) {
    exists i :: 0 <= i < |ins| && ins[i].kind.CategoryHeavy?
  }

  /** The rule each insight comes from, in the order the rules are checked. */
  function Rank(k: InsightKind): nat {
    match k
    case VeryCloseToIncome => 0
    case HighExpenseRatio => 0
    case SpendingMoreThanEarned => 1
    case LowSavingsRate => 2
    case GoodSavingsRate => 2
    case CategoryHeavy(_, _) => 3
  }

  /** The severity each kind of insight is reported with. */
  function SeverityOf(k: InsightKind): Severity {
    match k
    case VeryCloseToIncome => Alert
    case HighExpenseRatio => Warning
    case SpendingMoreThanEarned => Alert
    case LowSavingsRate => Warning
    case GoodSavingsRate => Info
    case CategoryHeavy(_, _) => Info
  }

  lemma MentionsAppend(a: seq<Insight>, b: seq<Insight>, k: InsightKind)
    ensures Mentions(a + b, k) <==> Mentions(a, k) || Mentions(b, k)
    ensures MentionsCategory(a + b) <==> MentionsCategory(a) || MentionsCategory(b)
  {
    if Mentions(a + b, k) {
      var i :| 0 <= i < |a + b| && (a + b)[i].kind == k;
      if i >= |a| {
        assert b[i - |a|].kind == k;
      }
    }
    if Mentions(b, k) {
      var i :| 0 <= i < |b| && b[i].kind == k;
      assert (a + b)[|a| + i].kind == k;
    }
    if MentionsCategory(a + b) {
      var i :| 0 <= i < |a + b| && (a + b)[i].kind.CategoryHeavy?;
      if i >= |a| {
        assert b[i - |a|].kind.CategoryHeavy?;
      }
    }
    if MentionsCategory(b) {
      var i :| 0 <= i < |b| && b[i].kind.CategoryHeavy?;
      assert (a + b)[|a| + i].kind.CategoryHeavy?;
    }
    if Mentions(a, k) {
      var i :| 0 <= i < |a| && a[i].kind == k;
      assert (a + b)[i].kind == k;
    }
    if MentionsCategory(a) {
      var i :| 0 <= i < |a| && a[i].kind.CategoryHeavy?;
      assert (a + b)[i].kind.CategoryHeavy?;
    }
  }

  /** The expense-ratio rule restated with cross products: an alert above 90 percent, a warning above 80. */
  lemma ExpenseRatioRule(s: MonthlySummary)
    ensures ExpenseRatioInsights(s) ==
      if s.totalIncome > 0.0 && s.totalExpense * 100.0 > 90.0 * s.totalIncome then [Insight(VeryCloseToIncome, Alert)]
      else if s.totalIncome > 0.0 && s.totalExpense * 100.0 > 80.0 * s.totalIncome then [Insight(HighExpenseRatio, Warning)]
      else []
  {
    if s.totalIncome > 0.0 {
      PercentVersus(s.totalExpense, s.totalIncome, 90.0);
      PercentVersus(s.totalExpense, s.totalIncome, 80.0);
    }
  }

  /** The savings-rate rule restated with cross products: a warning in [0, 10) percent, an info from 20. */
  lemma SavingsRateRule(s: MonthlySummary)
    ensures SavingsRateInsights(s) ==
      if s.totalIncome > 0.0 && 0.0 <= s.savings && s.savings * 100.0 < 10.0 * s.totalIncome then [Insight(LowSavingsRate, Warning)]
      else if s.totalIncome > 0.0 && s.savings * 100.0 >= 20.0 * s.totalIncome then [Insight(GoodSavingsRate, Info)]
      else []
  {
    if s.totalIncome > 0.0 {
      PercentVersus(s.savings, s.totalIncome, 10.0);
      PercentVersus(s.savings, s.totalIncome, 0.0);
      PercentVersus(s.savings, s.totalIncome, 20.0);
    }
  }

  /** The top-category rule restated with a cross product: an info above 40 percent of a positive expense. */
  lemma CategoryRule(s: MonthlySummary)
    ensures |CategoryInsights(s)| <= 1
    ensures CategoryInsights(s) != [] <==>
      |s.topCategories| > 0 && s.totalExpense > 0.0 && s.topCategories[0].amount * 100.0 > 40.0 * s.totalExpense
    ensures CategoryInsights(s) != [] ==>
      CategoryInsights(s)[0].kind.CategoryHeavy? && CategoryInsights(s)[0].kind.name == s.topCategories[0].name
  {
    if |s.topCategories| > 0 && s.totalExpense > 0.0 {
      PercentVersus(s.topCategories[0].amount, s.totalExpense, 40.0);
    }
  }

  lemma MentionsOneOrNone(ins: seq<Insight>, k: InsightKind)
    requires |ins| <= 1
    ensures Mentions(ins, k) <==> ins != [] && ins[0].kind == k
  {
    if ins != [] && ins[0].kind == k {
      assert ins[0].kind == k;
    }
  }

  /** Where each kind of insight can come from. */
  lemma MentionsIn(s: MonthlySummary, k: InsightKind)
    ensures Rank(k) == 0 ==> (Mentions(AllInsights(s), k) <==> Mentions(ExpenseRatioInsights(s), k))
    ensures Rank(k) == 1 ==> (Mentions(AllInsights(s), k) <==> Mentions(NegativeSavingsInsights(s), k))
    ensures Rank(k) == 2 ==> (Mentions(AllInsights(s), k) <==> Mentions(SavingsRateInsights(s), k))
    ensures MentionsCategory(AllInsights(s)) <==> MentionsCategory(CategoryInsights(s))
  {
    var a, b, c, d := ExpenseRatioInsights(s), NegativeSavingsInsights(s), SavingsRateInsights(s), CategoryInsights(s);
    MentionsAppend(a, b, k);
    MentionsAppend(a + b, c, k);
    MentionsAppend(a + b + c, d, k);
  }

  /**
   * Each insight appears exactly when its threshold is crossed, with the ratios restated as cross
   * products with the income (or expense) total, so a zero or negative total gives no ratio insight.
   */
  lemma InsightThresholds(s: MonthlySummary)
    ensures var ins := AllInsights(s);
      (Mentions(ins, VeryCloseToIncome) <==> s.totalIncome > 0.0 && s.totalExpense * 100.0 > 90.0 * s.totalIncome)
      && (Mentions(ins, HighExpenseRatio) <==>
            s.totalIncome > 0.0 && 80.0 * s.totalIncome < s.totalExpense * 100.0 <= 90.0 * s.totalIncome)
      && (Mentions(ins, SpendingMoreThanEarned) <==> s.savings < 0.0)
      && (Mentions(ins, LowSavingsRate) <==> s.totalIncome > 0.0 && 0.0 <= s.savings && s.savings * 100.0 < 10.0 * s.totalIncome)
      && (Mentions(ins, GoodSavingsRate) <==> s.totalIncome > 0.0 && s.savings * 100.0 >= 20.0 * s.totalIncome)
      && (MentionsCategory(ins) <==>
            |s.topCategories| > 0 && s.totalExpense > 0.0 && s.topCategories[0].amount * 100.0 > 40.0 * s.totalExpense)
  {
    ExpenseRatioRule(s);
    SavingsRateRule(s);
    CategoryRule(s);
    MentionsIn(s, VeryCloseToIncome);
    MentionsIn(s, HighExpenseRatio);
    MentionsIn(s, SpendingMoreThanEarned);
    MentionsIn(s, LowSavingsRate);
    MentionsIn(s, GoodSavingsRate);
    MentionsOneOrNone(ExpenseRatioInsights(s), VeryCloseToIncome);
    MentionsOneOrNone(ExpenseRatioInsights(s), HighExpenseRatio);
    MentionsOneOrNone(NegativeSavingsInsights(s), SpendingMoreThanEarned);
    MentionsOneOrNone(SavingsRateInsights(s), LowSavingsRate);
    MentionsOneOrNone(SavingsRateInsights(s), GoodSavingsRate);
    var d := CategoryInsights(s);
    assert MentionsCategory(d) <==> d != [] by {
      if d != [] {
        assert d[0].kind.CategoryHeavy?;
      }
    }
  }

  /**
   * At most one insight per rule, in rule order, each with its kind's severity: so never both ratio
   * insights, never both savings-rate insights, and never more than four in all.
   */
  lemma InsightOrder(s: MonthlySummary)
    ensures var ins := AllInsights(s);
      |ins| <= 4
      && (forall i, j :: 0 <= i < j < |ins| ==> Rank(ins[i].kind) < Rank(ins[j].kind))
      && (forall i :: 0 <= i < |ins| ==> ins[i].severity == SeverityOf(ins[i].kind))
  {
    var a, b, c, d := ExpenseRatioInsights(s), NegativeSavingsInsights(s), SavingsRateInsights(s), CategoryInsights(s);
    var ins := a + b + c + d;
    assert forall x :: x in a ==> Rank(x.kind) == 0 && x.severity == SeverityOf(x.kind);
    assert forall x :: x in b ==> Rank(x.kind) == 1 && x.severity == SeverityOf(x.kind);
    assert forall x :: x in c ==> Rank(x.kind) == 2 && x.severity == SeverityOf(x.kind);
    assert forall x :: x in d ==> Rank(x.kind) == 3 && x.severity == SeverityOf(x.kind);
    forall i, j | 0 <= i < j < |ins| ensures Rank(ins[i].kind) < Rank(ins[j].kind) {
      RankAt(a, b, c, d, i);
      RankAt(a, b, c, d, j);
    }
    forall i | 0 <= i < |ins| ensures ins[i].severity == SeverityOf(ins[i].kind) {
      assert ins[i] in a || ins[i] in b || ins[i] in c || ins[i] in d;
    }
  }

  /** Where an index of the concatenation lands: in the part of its rule. */
  lemma RankAt(a: seq<Insight>, b: seq<Insight>, c: seq<Insight>, d: seq<Insight>, i: int)
    requires |a| <= 1 && |b| <= 1 && |c| <= 1 && |d| <= 1
    requires forall x :: x in a ==> Rank(x.kind) == 0
    requires forall x :: x in b ==> Rank(x.kind) == 1
    requires forall x :: x in c ==> Rank(x.kind) == 2
    requires forall x :: x in d ==> Rank(x.kind) == 3
    requires 0 <= i < |a + b + c + d|
    ensures Rank((a + b + c + d)[i].kind) ==
      if i < |a| then 0 else if i < |a + b| then 1 else if i < |a + b + c| then 2 else 3
  {
    var ins := a + b + c + d;
    if i < |a| {
      assert ins[i] == a[i];
    } else if i < |a + b| {
      assert ins[i] == b[i - |a|];
    } else if i < |a + b + c| {
      assert ins[i] == c[i - |a + b|];
    } else {
      assert ins[i] == d[i - |a + b + c|];
    }
  }
}
