/**
 * The monthly summary of the analytics: income and expense totals, the investments counted for the
 * month, savings, and the expense categories (plus "Investments") ordered by amount; and the
 * yearly roll-ups built from twelve monthly summaries.
 * The database reads become sequence parameters: the month's transactions and all investments.
 */
module Analytics {
  import opened Wrappers
  import opened Dates
  import opened Sums
  import opened Domain
  import opened Crud
  import opened Categories

  const InvestmentsCategory := "Investments"

  function IncomeAmount(t: Transaction): real {
    if t.data.kind == Income then t.data.amount else 0.0
  }

  function ExpenseAmount(t: Transaction): real {
    if t.data.kind == Expense then t.data.amount else 0.0
  }

  /** Purchased in the target month or earlier, comparing (year, month) lexicographically. */
  predicate StartedBy(d: Date, year: int, month: int) {
    d.year < year || (d.year == year && d.month <= month)
  }

  /** What one investment adds to the investments total of (year, month). */
  function Contribution(inv: InvestmentData, year: int, month: int): real {
    if inv.isRecurring then
      if inv.recurringType == Some(Monthly) then
        if StartedBy(inv.purchaseDate, year, month) then AmountOrZero(inv.recurringAmount) else 0.0
      else if inv.recurringType == Some(Yearly) then
        var last := if inv.lastRecurringDate.Some? then inv.lastRecurringDate.value else inv.purchaseDate;
        if (last.year == year || (inv.purchaseDate.year == year && last.year < year))
           && (year - inv.purchaseDate.year) * 12 + (month - inv.purchaseDate.month) >= 0
           && StartedBy(last, year, month)
        then AmountOrZero(inv.recurringAmount) / 12.0
        else 0.0
      else 0.0
    else if inv.purchaseDate.year == year && inv.purchaseDate.month == month then inv.initialAmount
    else 0.0
  }

  function InvestmentsTotal(invs: seq<Investment>, year: int, month: int): real {
    if invs == [] then 0.0
    else InvestmentsTotal(invs[..|invs| - 1], year, month) + Contribution(invs[|invs| - 1].data, year, month)
  }

  /** The optional `db`, `year` and `month` arguments; the database is reduced to its investments. */
  datatype InvestmentContext = InvestmentContext(investments: seq<Investment>, year: int, month: int)

  /** `if db and year and month`: a zero year or month is falsy. */
  predicate CountsInvestments(ctx: Option<InvestmentContext>) {
    ctx.Some? && ctx.value.year != 0 && ctx.value.month != 0
  }

  function MonthInvestments(ctx: Option<InvestmentContext>): real {
    if CountsInvestments(ctx) then InvestmentsTotal(ctx.value.investments, ctx.value.year, ctx.value.month) else 0.0
  }

  /** The expense category map, built transaction by transaction. */
  function CategoryTotals(ts: seq<Transaction>): seq<CategoryAmount> {
    if ts == [] then []
    else
      var m := CategoryTotals(ts[..|ts| - 1]);
      var t := ts[|ts| - 1];
      if t.data.kind == Expense then AddTo(m, t.data.category, t.data.amount) else m
  }

  /** `if investments_total > 0: category_map["Investments"] = investments_total`. */
  function WithInvestments(m: seq<CategoryAmount>, total: real): seq<CategoryAmount> {
    if total > 0.0 then Put(m, InvestmentsCategory, total) else m
  }

  datatype MonthlySummary = MonthlySummary(
    totalIncome: real,
    totalExpense: real,
    investments: real,
    savings: real,
    topCategories: seq<CategoryAmount>)

  /** The summary `calculate_monthly_summary` returns. */
  function Summary(ts: seq<Transaction>, ctx: Option<InvestmentContext>): MonthlySummary {
    var income := Sum(ts, IncomeAmount);
    var expense := Sum(ts, ExpenseAmount);
    var investments := MonthInvestments(ctx);
    MonthlySummary(income, expense, investments, income - expense - investments,
                   SortDesc(WithInvestments(CategoryTotals(ts), investments)))
  }

  /** `calculate_monthly_summary`: the investments loop and the category-map loop. */
  method CalculateMonthlySummary(ts: seq<Transaction>, ctx: Option<InvestmentContext>) returns (r: MonthlySummary)
    ensures r == Summary(ts, ctx)
  {
    var income := Sum(ts, IncomeAmount);
    var expense := Sum(ts, ExpenseAmount);
    var investmentsTotal := 0.0;
    if CountsInvestments(ctx) {
      investmentsTotal := AddUpInvestments(ctx.value.investments, ctx.value.year, ctx.value.month);
    }
    var categoryMap := ExpenseCategoryMap(ts);
    if investmentsTotal > 0.0 {
      categoryMap := Put(categoryMap, InvestmentsCategory, investmentsTotal);
    }
    r := MonthlySummary(income, expense, investmentsTotal, income - expense - investmentsTotal, SortDesc(categoryMap));
  }

  /** The `investments_total +=` loop over all investments. */
  method AddUpInvestments(invs: seq<Investment>, year: int, month: int) returns (total: real)
    ensures total == InvestmentsTotal(invs, year, month)
  {
    total := 0.0;
    var i := 0;
    while i < |invs|
      invariant 0 <= i <= |invs|
      invariant total == InvestmentsTotal(invs[..i], year, month)
    {
      assert invs[..i + 1][..i] == invs[..i];
      var inv := invs[i].data;
      if inv.isRecurring {
        if inv.recurringType == Some(Monthly) {
          if StartedBy(inv.purchaseDate, year, month) {
            total := total + AmountOrZero(inv.recurringAmount);
          }
        } else if inv.recurringType == Some(Yearly) {
          var last := if inv.lastRecurringDate.Some? then inv.lastRecurringDate.value else inv.purchaseDate;
          if last.year == year || (inv.purchaseDate.year == year && last.year < year) {
            var monthsSincePurchase := (year - inv.purchaseDate.year) * 12 + (month - inv.purchaseDate.month);
            if monthsSincePurchase >= 0 {
              if StartedBy(last, year, month) {
                total := total + AmountOrZero(inv.recurringAmount) / 12.0;
              }
            }
          }
        }
      } else if inv.purchaseDate.year == year && inv.purchaseDate.month == month {
        total := total + inv.initialAmount;
      }
      i := i + 1;
    }
    assert invs[..i] == invs;
  }

  /** The `category_map[t.category] = category_map.get(t.category, 0) + t.amount` loop over expenses. */
  method ExpenseCategoryMap(ts: seq<Transaction>) returns (m: seq<CategoryAmount>)
    ensures m == CategoryTotals(ts)
  {
    m := [];
    var j := 0;
    while j < |ts|
      invariant 0 <= j <= |ts|
      invariant m == CategoryTotals(ts[..j])
    {
      assert ts[..j + 1][..j] == ts[..j];
      if ts[j].data.kind == Expense {
        m := AddTo(m, ts[j].data.category, ts[j].data.amount);
      }
      j := j + 1;
    }
    assert ts[..j] == ts;
  }

  // ----- What the summary means -----

  predicate HasExpenseIn(ts: seq<Transaction>, c: string) {
    exists i :: 0 <= i < |ts| && ts[i].data.kind == Expense && ts[i].data.category == c
  }

  /** The amount spent in one category. */
  function CategorySpent(ts: seq<Transaction>, c: string): real {
    if ts == [] then 0.0
    else
      var t := ts[|ts| - 1];
      CategorySpent(ts[..|ts| - 1], c) + (if t.data.kind == Expense && t.data.category == c then t.data.amount else 0.0)
  }

  /**
   * The category map has one entry per expense category, holding that category's total, and the
   * entries add up to the month's expense total.
   */
  lemma {:induction false} CategoryTotalsMeaning(ts: seq<Transaction>)
    ensures DistinctKeys(CategoryTotals(ts))
    ensures forall c :: HasKey(CategoryTotals(ts), c) <==> HasExpenseIn(ts, c)
    ensures forall c :: Get(CategoryTotals(ts), c) == CategorySpent(ts, c)
    ensures Total(CategoryTotals(ts)) == Sum(ts, ExpenseAmount)
  {
    if ts != [] {
      var init := ts[..|ts| - 1];
      var t := ts[|ts| - 1];
      CategoryTotalsMeaning(init);
      if t.data.kind == Expense {
        AddToMeaning(CategoryTotals(init), t.data.category, t.data.amount);
      }
      forall c ensures HasExpenseIn(ts, c) <==> HasExpenseIn(init, c) || (t.data.kind == Expense && t.data.category == c) {
        if HasExpenseIn(init, c) {
          var i :| 0 <= i < |init| && init[i].data.kind == Expense && init[i].data.category == c;
          assert ts[i] == init[i];
        }
        if HasExpenseIn(ts, c) && !(t.data.kind == Expense && t.data.category == c) {
          var i :| 0 <= i < |ts| && ts[i].data.kind == Expense && ts[i].data.category == c;
          assert i < |ts| - 1 && init[i] == ts[i];
        }
      }
    }
  }

  /**
   * `top_categories` is the category map in non-increasing order of amount: exactly the expense
   * categories, plus "Investments" iff investments were counted and are positive, in which case that
   * entry holds the investments total in place of any expense category of the same name.
   */
  lemma TopCategories(ts: seq<Transaction>, ctx: Option<InvestmentContext>)
    ensures var s := Summary(ts, ctx);
      SortedDesc(s.topCategories)
      && multiset(s.topCategories) == multiset(WithInvestments(CategoryTotals(ts), s.investments))
      && DistinctKeys(WithInvestments(CategoryTotals(ts), s.investments))
      && (forall c :: HasKey(s.topCategories, c) <==> HasExpenseIn(ts, c) || (c == InvestmentsCategory && s.investments > 0.0))
      && (forall c :: c != InvestmentsCategory || s.investments <= 0.0 ==>
            Get(WithInvestments(CategoryTotals(ts), s.investments), c) == CategorySpent(ts, c))
      && (s.investments > 0.0 ==> Get(WithInvestments(CategoryTotals(ts), s.investments), InvestmentsCategory) == s.investments)
  {
    var s := Summary(ts, ctx);
    CategoryTotalsMeaning(ts);
    if s.investments > 0.0 {
      PutMeaning(CategoryTotals(ts), InvestmentsCategory, s.investments);
    }
    forall c ensures HasKey(s.topCategories, c) <==> HasKey(WithInvestments(CategoryTotals(ts), s.investments), c) {
      SortKeepsKeys(WithInvestments(CategoryTotals(ts), s.investments), c);
    }
  }

  /** Without a database, year and month, no investment is counted and savings is income minus expense. */
  lemma NoContextNoInvestments(ts: seq<Transaction>, ctx: Option<InvestmentContext>)
    requires !CountsInvestments(ctx)
    ensures Summary(ts, ctx).investments == 0.0
    ensures Summary(ts, ctx).savings == Sum(ts, IncomeAmount) - Sum(ts, ExpenseAmount)
    ensures Summary(ts, ctx).topCategories == SortDesc(CategoryTotals(ts))
  {
  }

  // ----- An investment over the months of a year -----

  /** The contributions of one investment over months 1..n of a year. */
  function ContributionThrough(inv: InvestmentData, year: int, n: nat): real {
    if n == 0 then 0.0 else ContributionThrough(inv, year, n - 1) + Contribution(inv, year, n)
  }

  /** A one-off purchase is counted in exactly one month: its purchase month. */
  lemma {:induction false} OneOffCountedOnce(inv: InvestmentData, year: int, n: nat)
    requires !inv.isRecurring && n <= 12
    ensures ContributionThrough(inv, year, n) ==
      if inv.purchaseDate.year == year && inv.purchaseDate.month <= n then inv.initialAmount else 0.0
  {
    if n > 0 {
      OneOffCountedOnce(inv, year, n - 1);
    }
  }

  /** A monthly plan bought before the year is counted in every month: twelve recurring amounts a year. */
  lemma {:induction false} MonthlyPlanEveryMonth(inv: InvestmentData, year: int, n: nat)
    requires inv.isRecurring && inv.recurringType == Some(Monthly) && inv.purchaseDate.year < year
    ensures ContributionThrough(inv, year, n) == n as real * AmountOrZero(inv.recurringAmount)
  {
    if n > 0 {
      MonthlyPlanEveryMonth(inv, year, n - 1);
    }
  }

  /** A monthly plan bought during the year is counted from its purchase month on. */
  lemma {:induction false} MonthlyPlanFromPurchase(inv: InvestmentData, n: nat)
    requires inv.isRecurring && inv.recurringType == Some(Monthly) && n <= 12
    ensures var p := inv.purchaseDate.month;
      ContributionThrough(inv, inv.purchaseDate.year, n) ==
        (if n >= p then (n - p + 1) as real else 0.0) * AmountOrZero(inv.recurringAmount)
  {
    if n > 0 {
      MonthlyPlanFromPurchase(inv, n - 1);
    }
  }

  // ----- Yearly roll-ups -----

  /**
   * The transactions of one month, `get_transactions_by_month`; the roll-ups ask only for months
   * 1..12, where the window exists.
   */
  function MonthTransactions(ts: seq<Transaction>, year: int, month: int): seq<Transaction> {
    TransactionsByMonth(ts, year, month).GetOr([])
  }

  function MonthSummary(ts: seq<Transaction>, invs: seq<Investment>, year: int, month: int): MonthlySummary {
    Summary(MonthTransactions(ts, year, month), Some(InvestmentContext(invs, year, month)))
  }

  /** One row of `monthly_breakdown`; the label `f"{year}-{month:02d}"` is kept as the pair. */
  datatype MonthEntry = MonthEntry(year: int, month: int, income: real, expense: real, investments: real, savings: real)

  function EntryOf(s: MonthlySummary, year: int, month: int): MonthEntry {
    MonthEntry(year, month, s.totalIncome, s.totalExpense, s.investments, s.savings)
  }

  function EntryIncome(e: MonthEntry): real { e.income }
  function EntryExpense(e: MonthEntry): real { e.expense }
  function EntryInvestments(e: MonthEntry): real { e.investments }
  function EntrySavings(e: MonthEntry): real { e.savings }

  /** The breakdown entry of each month of a year (months outside 1..12 have none). */
  function MonthEntryAt(ts: seq<Transaction>, invs: seq<Investment>, year: int, m: int): MonthEntry {
    EntryOf(MonthSummary(ts, invs, year, m), year, m)
  }

  /** `b` lists f(1), f(2), ..., f(|b|) in that order. */
  ghost predicate Lists<T>(b: seq<T>, f: int -> T) {
    b == [] || (Lists(b[..|b| - 1], f) && b[|b| - 1] == f(|b|))
  }

  lemma ListsSnoc<T>(b: seq<T>, x: T, f: int -> T)
    requires Lists(b, f) && x == f(|b| + 1)
    ensures Lists(b + [x], f)
  {
    assert (b + [x])[..|b|] == b;
  }

  lemma {:induction false} ListsPointwise<T>(b: seq<T>, f: int -> T)
    requires Lists(b, f)
    ensures forall k :: 0 <= k < |b| ==> b[k] == f(k + 1)
  {
    if b != [] {
      var init := b[..|b| - 1];
      ListsPointwise(init, f);
      forall k | 0 <= k < |b| ensures b[k] == f(k + 1) {
        if k < |init| {
          assert b[k] == init[k];
        }
      }
    }
  }

  datatype YearlySummary = YearlySummary(
    year: int,
    totalIncome: real,
    totalExpense: real,
    investments: real,
    savings: real,
    monthlyBreakdown: seq<MonthEntry>)

  /**
   * `get_yearly_summary`: one breakdown entry per month 1..12 in order, each the month's summary,
   * and yearly totals that are the sums of the monthly values.
   */
  method GetYearlySummary(ts: seq<Transaction>, invs: seq<Investment>, year: int) returns (r: YearlySummary)
    ensures r.year == year
    ensures |r.monthlyBreakdown| == 12
    ensures forall k :: 0 <= k < 12 ==> r.monthlyBreakdown[k] == MonthEntryAt(ts, invs, year, k + 1)
    ensures r.totalIncome == Sum(r.monthlyBreakdown, EntryIncome)
    ensures r.totalExpense == Sum(r.monthlyBreakdown, EntryExpense)
    ensures r.investments == Sum(r.monthlyBreakdown, EntryInvestments)
    ensures r.savings == r.totalIncome - r.totalExpense - r.investments
  {
    var income, expense, investments := 0.0, 0.0, 0.0;
    var breakdown: seq<MonthEntry> := [];
    ghost var entryAt := m => MonthEntryAt(ts, invs, year, m);
    var month := 1;
    while month <= 12
      invariant 1 <= month <= 13
      invariant |breakdown| == month - 1
      invariant Lists(breakdown, entryAt)
      invariant income == Sum(breakdown, EntryIncome)
      invariant expense == Sum(breakdown, EntryExpense)
      invariant investments == Sum(breakdown, EntryInvestments)
    {
      var entry := SummaryOfMonth(ts, invs, year, month);
      income := income + entry.income;
      expense := expense + entry.expense;
      investments := investments + entry.investments;
      ListsSnoc(breakdown, entry, entryAt);
      SumSnoc(breakdown, entry, EntryIncome);
      SumSnoc(breakdown, entry, EntryExpense);
      SumSnoc(breakdown, entry, EntryInvestments);
      breakdown := breakdown + [entry];
      month := month + 1;
    }
    ListsPointwise(breakdown, entryAt);
    r := YearlySummary(year, income, expense, investments, income - expense - investments, breakdown);
  }

  /** `crud.get_transactions_by_month` followed by `calculate_monthly_summary` for one month. */
  method SummaryOfMonth(ts: seq<Transaction>, invs: seq<Investment>, year: int, month: int) returns (e: MonthEntry)
    requires 1 <= month <= 12
    ensures e == MonthEntryAt(ts, invs, year, month)
  {
    var transactions := TransactionsByMonth(ts, year, month).value;
    var s := CalculateMonthlySummary(transactions, Some(InvestmentContext(invs, year, month)));
    e := EntryOf(s, year, month);
  }

  /** Each month's savings in the breakdown adds up to the yearly savings. */
  lemma {:induction false} BreakdownSavingsAddUp(es: seq<MonthEntry>)
    requires forall k :: 0 <= k < |es| ==> es[k].savings == es[k].income - es[k].expense - es[k].investments
    ensures Sum(es, EntrySavings) == Sum(es, EntryIncome) - Sum(es, EntryExpense) - Sum(es, EntryInvestments)
  {
    if es != [] {
      BreakdownSavingsAddUp(es[..|es| - 1]);
    }
  }

  /** A monthly summary's savings is its income minus expense minus investments. */
  lemma SummarySavings(ts: seq<Transaction>, ctx: Option<InvestmentContext>)
    ensures var s := Summary(ts, ctx); s.savings == s.totalIncome - s.totalExpense - s.investments
  {
  }
}
