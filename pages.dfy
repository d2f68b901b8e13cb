/**
 * The pages' own computations: the dashboard's tiles with the guarded savings rate, the analytics
 * page's trend totals and average, and the transactions page's month navigation, which drives the
 * transactions hook.
 */
module Pages {
  import opened Wrappers
  import opened Sums
  import opened Dates
  import opened ClientTypes
  import opened Hooks
  import Domain
  import Categories
  import ChartViews
  import Analytics
  import Insights

  /** The monthly summary as the dashboard reads it; `investments` may be missing from the reply. */
  datatype DashboardSummary = DashboardSummary(
    totalIncome: real,
    totalExpense: real,
    investments: Option<real>,
    savings: real,
    topCategories: seq<ChartViews.ChartItem>)

  /**
   * What the dashboard's analytics hook holds for the server's summary of the current month. The
   * endpoint wraps each top category in `schemas.CategoryExpense`, which the schemas do not define,
   * so a month with any top category answers with a server error and the hook keeps `null`.
   * Otherwise the reply follows the response model, which declares no `investments` field: that
   * figure is dropped.
   */
  function Received(s: Analytics.MonthlySummary): (r: Option<DashboardSummary>)
    ensures r.Some? <==> s.topCategories == []
    ensures r.Some? ==>
      r.value.totalIncome == s.totalIncome && r.value.totalExpense == s.totalExpense && r.value.savings == s.savings
    ensures r.Some? ==> r.value.investments == None && r.value.topCategories == []
  {
    if s.topCategories != [] then None
    else Some(DashboardSummary(s.totalIncome, s.totalExpense, None, s.savings, ChartViews.AsPairs(s.topCategories)))
  }

  /** `summary.total_income > 0 ? summary.savings / summary.total_income * 100 : 0`: never a division by zero. */
  function SavingsRate(income: real, savings: real): (r: real)
    ensures income > 0.0 ==> r * income == savings * 100.0
    ensures income <= 0.0 ==> r == 0.0
  {
    if income > 0.0 then savings / income * 100.0 else 0.0
  }

  datatype DashboardView =
    | Loading
    | Tiles(totalIncome: real, totalExpense: real, investments: real, savings: real, savingsBlue: bool, savingsRate: real)

  /** The dashboard: only the loading view until analytics has arrived. */
  function Dashboard(analytics: Option<DashboardSummary>): (r: DashboardView)
    ensures r.Loading? <==> analytics.None?
    ensures r.Tiles? ==>
      var s := analytics.value;
      r.totalIncome == s.totalIncome && r.totalExpense == s.totalExpense && r.savings == s.savings
      && r.investments == s.investments.GetOr(0.0)
      && (r.savingsBlue <==> s.savings >= 0.0)
      && r.savingsRate == SavingsRate(s.totalIncome, s.savings)
  {
    match analytics
    case None => Loading
    case Some(s) =>
      var investments := if s.investments.Some? && s.investments.value != 0.0 then s.investments.value else 0.0;
      Tiles(s.totalIncome, s.totalExpense, investments, s.savings, s.savings >= 0.0, SavingsRate(s.totalIncome, s.savings))
  }

  /**
   * Whenever the dashboard shows the server's summary, its rate is the savings rate the insights are
   * judged by, and with non-negative expense and investments it is at most 100%.
   */
  lemma DashboardRateOfServerSummary(s: Analytics.MonthlySummary)
    requires s.totalIncome > 0.0
    requires s.savings == s.totalIncome - s.totalExpense - s.investments
    ensures var v := Dashboard(Received(s));
      v.Tiles? ==>
        v.savingsRate == Insights.Percent(s.savings, s.totalIncome)
        && (s.totalExpense >= 0.0 && s.investments >= 0.0 ==> v.savingsRate <= 100.0)
  {
    var v := Dashboard(Received(s));
    if v.Tiles? {
      var r := v.savingsRate;
      var p := Insights.Percent(s.savings, s.totalIncome);
      assert (r - p) * s.totalIncome == 0.0 && (p - r) * s.totalIncome == 0.0;
      NonPositiveFactor(r - p, s.totalIncome);
      NonPositiveFactor(p - r, s.totalIncome);
      if s.totalExpense >= 0.0 && s.investments >= 0.0 {
        assert (r - 100.0) * s.totalIncome == (s.savings - s.totalIncome) * 100.0;
        NonPositiveFactor(r - 100.0, s.totalIncome);
      }
    }
  }

  /**
   * For a month's transactions the dashboard stays on its loading view exactly when the month has an
   * expense or a positive investments figure; otherwise it shows the month's income and savings and
   * an investments tile of 0.
   */
  lemma DashboardOfMonth(ts: seq<Domain.Transaction>, ctx: Option<Analytics.InvestmentContext>)
    ensures var s := Analytics.Summary(ts, ctx);
      var v := Dashboard(Received(s));
      (v.Loading? <==> (exists c :: Analytics.HasExpenseIn(ts, c)) || s.investments > 0.0)
      && (v.Tiles? ==> v.investments == 0.0 && v.totalIncome == s.totalIncome && v.savings == s.savings)
  {
    var s := Analytics.Summary(ts, ctx);
    Analytics.TopCategories(ts, ctx);
    if s.topCategories != [] {
      assert Categories.HasKey(s.topCategories, s.topCategories[0].name);
    }
    forall c | Analytics.HasExpenseIn(ts, c) ensures s.topCategories != [] {
      assert Categories.HasKey(s.topCategories, c);
    }
    if s.investments > 0.0 {
      assert Categories.HasKey(s.topCategories, Analytics.InvestmentsCategory);
    }
  }

  lemma NonPositiveFactor(d: real, a: real)
    requires a > 0.0 && d * a <= 0.0
    ensures d <= 0.0
  {
  }

  /** One month of the spending trends the analytics page charts. */
  datatype TrendEntry = TrendEntry(month: string, income: real, expense: real, savings: real)

  function TrendIncome(e: TrendEntry): real { e.income }
  function TrendExpense(e: TrendEntry): real { e.expense }
  function TrendSavings(e: TrendEntry): real { e.savings }

  datatype TrendSummary = TrendSummary(totalIncome: real, totalExpense: real, totalSavings: real, averageSavings: real)

  /** The analytics summary block: shown only for a non-empty trend list, so its division is never by zero. */
  function TrendSummaryOf(entries: seq<TrendEntry>): (r: Option<TrendSummary>)
    ensures r.None? <==> entries == []
    ensures r.Some? ==>
      r.value.totalIncome == Sum(entries, TrendIncome) && r.value.totalExpense == Sum(entries, TrendExpense)
      && r.value.totalSavings == Sum(entries, TrendSavings)
      && r.value.averageSavings * |entries| as real == r.value.totalSavings
  {
    if entries == [] then None
    else
      var savings := Sum(entries, TrendSavings);
      Some(TrendSummary(Sum(entries, TrendIncome), Sum(entries, TrendExpense), savings, savings / |entries| as real))
  }

  /** When every month's savings are its income less its expense, so are the totals'. */
  lemma TrendTotalsAgree(entries: seq<TrendEntry>)
    requires entries != []
    requires forall e :: e in entries ==> e.savings == e.income - e.expense
    ensures var t := TrendSummaryOf(entries).value; t.totalSavings == t.totalIncome - t.totalExpense
  {
    SumDifference(entries, TrendIncome, TrendExpense, (e: TrendEntry) => e.income - e.expense);
    SumPointwise(entries, TrendSavings, entries, (e: TrendEntry) => e.income - e.expense);
  }

  /** The average lies between the smallest and the largest month's savings. */
  lemma AverageWithinMonths(entries: seq<TrendEntry>, low: real, high: real)
    requires entries != []
    requires forall e :: e in entries ==> low <= e.savings <= high
    ensures low <= TrendSummaryOf(entries).value.averageSavings <= high
  {
    var n := |entries| as real;
    var t := TrendSummaryOf(entries).value;
    assert forall i :: 0 <= i < |entries| ==> entries[i] in entries;
    SumBounds(entries, low, high);
    var a := t.averageSavings;
    assert (low - a) * n == low * n - t.totalSavings;
    NonPositiveFactor(low - a, n);
    assert (a - high) * n == t.totalSavings - high * n;
    NonPositiveFactor(a - high, n);
  }

  lemma {:induction false} SumBounds(entries: seq<TrendEntry>, low: real, high: real)
    requires forall i :: 0 <= i < |entries| ==> low <= entries[i].savings <= high
    ensures low * |entries| as real <= Sum(entries, TrendSavings) <= high * |entries| as real
  {
    if entries != [] {
      var n := |entries| - 1;
      var init := entries[..n];
      assert forall i :: 0 <= i < |init| ==> init[i] == entries[i];
      SumBounds(init, low, high);
      assert Sum(entries, TrendSavings) == Sum(init, TrendSavings) + entries[n].savings;
      BoundStep(Sum(init, TrendSavings), entries[n].savings, |init| as real, |entries| as real, low, high);
    }
  }

  /** Adding one value within the bounds to a total of k such values gives a total of k + 1. */
  lemma BoundStep(before: real, x: real, k: real, k1: real, low: real, high: real)
    requires k1 == k + 1.0 && low * k <= before <= high * k && low <= x <= high
    ensures low * k1 <= before + x <= high * k1
  {
    assert low * k1 == low * k + low;
    assert high * k1 == high * k + high;
  }

  /** The transactions page's month selection; it starts at the current month and stays within 1..12. */
  class MonthNavigator {
    var year: int
    var month: int

    ghost predicate Valid()
      reads this
    {
      1 <= month <= 12
    }

    /** `getFullYear()` and `getMonth() + 1` of the clock reading. */
    constructor(nowYear: int, nowMonthIndex: int)
      requires 0 <= nowMonthIndex < 12
      ensures Valid() && year == nowYear && month == nowMonthIndex + 1
    {
      year := nowYear;
      month := nowMonthIndex + 1;
    }

    /** `handlePrevMonth`: January steps back to December of the previous year. */
    method HandlePrevMonth()
      requires Valid()
      modifies this
      ensures Valid()
      ensures (year, month) == PreviousMonth(old(year), old(month))
      ensures MonthIndex(year, month) == MonthIndex(old(year), old(month)) - 1
    {
      if month == 1 {
        month := 12;
        year := year - 1;
      } else {
        month := month - 1;
      }
    }

    /** `handleNextMonth`: December steps on to January of the next year. */
    method HandleNextMonth()
      requires Valid()
      modifies this
      ensures Valid()
      ensures (year, month) == NextMonth(old(year), old(month))
      ensures MonthIndex(year, month) == MonthIndex(old(year), old(month)) + 1
    {
      if month == 12 {
        month := 1;
        year := year + 1;
      } else {
        month := month + 1;
      }
    }
  }

  /** The transactions page: the navigator's month is the month the transactions hook lists. */
  class TransactionsPage {
    const navigator: MonthNavigator
    const transactions: TransactionsHook

    ghost predicate Valid()
      reads this, navigator, transactions
    {
      navigator.Valid() && transactions.year == navigator.year && transactions.month == navigator.month
    }

    constructor(nowYear: int, nowMonthIndex: int, reply: Reply<seq<ClientTransaction>>)
      requires 0 <= nowMonthIndex < 12
      ensures Valid() && fresh(navigator) && fresh(transactions)
      ensures navigator.year == nowYear && navigator.month == nowMonthIndex + 1
      ensures reply.Ok? ==> transactions.transactions == reply.value
    {
      navigator := new MonthNavigator(nowYear, nowMonthIndex);
      transactions := new TransactionsHook(nowYear, nowMonthIndex + 1, reply);
    }

    /** The previous-month button: the month changes, so the hook refetches and lists the new month's transactions. */
    method PreviousMonthClicked(reply: Reply<seq<ClientTransaction>>)
      requires Valid()
      modifies navigator, transactions
      ensures Valid()
      ensures (navigator.year, navigator.month) == PreviousMonth(old(navigator.year), old(navigator.month))
      ensures !transactions.loading
      ensures reply.Ok? ==> transactions.transactions == reply.value && transactions.error == None
      ensures reply.Failed? ==>
        transactions.transactions == old(transactions.transactions) && transactions.error == Some(FetchTransactionsFailed)
    {
      navigator.HandlePrevMonth();
      transactions.Rerender(navigator.year, navigator.month, reply);
    }

    /** The next-month button, likewise. */
    method NextMonthClicked(reply: Reply<seq<ClientTransaction>>)
      requires Valid()
      modifies navigator, transactions
      ensures Valid()
      ensures (navigator.year, navigator.month) == NextMonth(old(navigator.year), old(navigator.month))
      ensures !transactions.loading
      ensures reply.Ok? ==> transactions.transactions == reply.value && transactions.error == None
      ensures reply.Failed? ==>
        transactions.transactions == old(transactions.transactions) && transactions.error == Some(FetchTransactionsFailed)
    {
      navigator.HandleNextMonth();
      transactions.Rerender(navigator.year, navigator.month, reply);
    }
  }
}
