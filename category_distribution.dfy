/**
 * The yearly category distribution: the twelve monthly summaries of a year are merged category by
 * category, leaving out each month's "Investments" entry; the year's investments are added back as
 * one "Investments" entry only on request and when positive; the result is ordered by amount.
 * Its expense total leaves "Investments" out, so it is the year's expense outside any category of
 * that name.
 */
module CategoryDistribution {
  import opened Wrappers
  import opened Sums
  import opened Domain
  import opened Crud
  import opened Categories
  import opened Analytics

  /** Folding one month's categories into the yearly map, skipping "Investments". */
  function MergeCategories(m: seq<CategoryAmount>, cats: seq<CategoryAmount>): seq<CategoryAmount> {
    if cats == [] then m
    else
      var merged := MergeCategories(m, cats[..|cats| - 1]);
      var c := cats[|cats| - 1];
      if c.name != InvestmentsCategory then AddTo(merged, c.name, c.amount) else merged
  }

  /** The yearly map after the given months, in order. */
  function MergeMonths(ss: seq<MonthlySummary>): seq<CategoryAmount> {
    if ss == [] then [] else MergeCategories(MergeMonths(ss[..|ss| - 1]), ss[|ss| - 1].topCategories)
  }

  /** Some month lists category x. */
  predicate InSomeMonth(ss: seq<MonthlySummary>, x: string) {
    ss != [] && (InSomeMonth(ss[..|ss| - 1], x) || HasKey(ss[|ss| - 1].topCategories, x))
  }

  function SummaryInvestments(s: MonthlySummary): real { s.investments }

  /** What a month lists under category x (its entry's amount, the month's keys being distinct). */
  function MonthAmount(x: string): MonthlySummary -> real {
    (s: MonthlySummary) => Sum(s.topCategories, Only(x))
  }

  /** A month's categories totalled without "Investments". */
  function NonInvestmentSpending(s: MonthlySummary): real {
    TotalExcept(s.topCategories, InvestmentsCategory)
  }

  datatype YearlyDistribution = YearlyDistribution(
    year: int,
    includeInvestments: bool,
    topCategories: seq<CategoryAmount>,
    totalExpense: real,
    totalInvestments: real)

  /** The result for the given monthly summaries. */
  function Distribution(ss: seq<MonthlySummary>, year: int, includeInvestments: bool): YearlyDistribution {
    var invested := Sum(ss, SummaryInvestments);
    var merged := MergeMonths(ss);
    var m := if includeInvestments && invested > 0.0 then Put(merged, InvestmentsCategory, invested) else merged;
    var top := SortDesc(m);
    YearlyDistribution(year, includeInvestments, top, TotalExcept(top, InvestmentsCategory), invested)
  }

  /** The summaries of months 1..12 of a year, as `get_yearly_summary` also computes them. */
  function YearMonths(ts: seq<Transaction>, invs: seq<Investment>, year: int): (r: seq<MonthlySummary>)
    ensures |r| == 12
  {
    seq(12, i requires 0 <= i < 12 => MonthSummary(ts, invs, year, i + 1))
  }

  /** `get_yearly_category_distribution`: the month loop with its inner category loop, then the optional entry and the sort. */
  method GetYearlyCategoryDistribution(ts: seq<Transaction>, invs: seq<Investment>, year: int, includeInvestments: bool)
    returns (r: YearlyDistribution)
    ensures r == Distribution(YearMonths(ts, invs, year), year, includeInvestments)
    ensures SortedDesc(r.topCategories) && DistinctKeys(r.topCategories)
    ensures forall x :: x != InvestmentsCategory ==> Get(r.topCategories, x) == SpentOverMonths(ts, year, x, 12)
    ensures r.totalExpense == SpendingOutsideInvestments(ts, year, 12)
  {
    var categoryMap: seq<CategoryAmount> := [];
    var yearlyInvestments := 0.0;
    ghost var done: seq<MonthlySummary> := [];
    ghost var summaryAt := m => MonthSummary(ts, invs, year, m);
    var month := 1;
    while month <= 12
      invariant 1 <= month <= 13 && |done| == month - 1
      invariant Lists(done, summaryAt)
      invariant categoryMap == MergeMonths(done)
      invariant yearlyInvestments == Sum(done, SummaryInvestments)
    {
      var summary := SummaryForMonth(ts, invs, year, month);
      categoryMap := MergeMonthCategories(categoryMap, summary.topCategories);
      yearlyInvestments := yearlyInvestments + summary.investments;
      ListsSnoc(done, summary, summaryAt);
      SumSnoc(done, summary, SummaryInvestments);
      assert (done + [summary])[..|done|] == done;
      done := done + [summary];
      month := month + 1;
    }
    if includeInvestments && yearlyInvestments > 0.0 {
      categoryMap := Put(categoryMap, InvestmentsCategory, yearlyInvestments);
    }
    var top := SortDesc(categoryMap);
    r := YearlyDistribution(year, includeInvestments, top, TotalExcept(top, InvestmentsCategory), yearlyInvestments);
    assert r == Distribution(done, year, includeInvestments);
    ListsPointwise(done, summaryAt);
    AreYearMonths(done, ts, invs, year);
    DistributionKeys(done, year, includeInvestments);
    YearlyCategoryAmounts(ts, invs, year, includeInvestments);
    YearlyExpenseOutsideInvestments(ts, invs, year, includeInvestments);
  }

  lemma AreYearMonths(ss: seq<MonthlySummary>, ts: seq<Transaction>, invs: seq<Investment>, year: int)
    requires |ss| == 12 && forall k :: 0 <= k < 12 ==> ss[k] == MonthSummary(ts, invs, year, k + 1)
    ensures ss == YearMonths(ts, invs, year)
  {
  }

  /** `crud.get_transactions_by_month` followed by `calculate_monthly_summary`. */
  method SummaryForMonth(ts: seq<Transaction>, invs: seq<Investment>, year: int, month: int) returns (s: MonthlySummary)
    requires 1 <= month <= 12
    ensures s == MonthSummary(ts, invs, year, month)
  {
    var transactions := TransactionsByMonth(ts, year, month).value;
    s := CalculateMonthlySummary(transactions, Some(InvestmentContext(invs, year, month)));
  }

  /** The inner loop: each category other than "Investments" added into the yearly map. */
  method MergeMonthCategories(categoryMap: seq<CategoryAmount>, cats: seq<CategoryAmount>) returns (merged: seq<CategoryAmount>)
    ensures merged == MergeCategories(categoryMap, cats)
  {
    merged := categoryMap;
    var j := 0;
    while j < |cats|
      invariant 0 <= j <= |cats|
      invariant merged == MergeCategories(categoryMap, cats[..j])
    {
      assert cats[..j + 1][..j] == cats[..j];
      var c := cats[j];
      if c.name != InvestmentsCategory {
        merged := AddTo(merged, c.name, c.amount);
      }
      j := j + 1;
    }
    assert cats[..j] == cats;
  }

  /**
   * Merging keeps the keys distinct, adds exactly the categories other than "Investments", adds
   * each such category's amounts to its entry, and adds them to the total.
   */
  lemma {:induction false} MergeCategoriesMeaning(m: seq<CategoryAmount>, cats: seq<CategoryAmount>)
    requires DistinctKeys(m)
    ensures var r := MergeCategories(m, cats);
      DistinctKeys(r)
      && (forall x :: HasKey(r, x) <==> HasKey(m, x) || (x != InvestmentsCategory && HasKey(cats, x)))
      && Total(r) == Total(m) + TotalExcept(cats, InvestmentsCategory)
      && (forall x :: Get(r, x) == Get(m, x) + (if x != InvestmentsCategory then Sum(cats, Only(x)) else 0.0))
  {
    if cats != [] {
      var init, c := cats[..|cats| - 1], cats[|cats| - 1];
      MergeCategoriesMeaning(m, init);
      var merged := MergeCategories(m, init);
      if c.name != InvestmentsCategory {
        AddToMeaning(merged, c.name, c.amount);
      }
      forall x ensures HasKey(cats, x) <==> HasKey(init, x) || c.name == x {
        HasKeyLast(cats, x);
      }
    }
  }

  lemma HasKeyLast(m: seq<CategoryAmount>, x: string)
    requires m != []
    ensures HasKey(m, x) <==> HasKey(m[..|m| - 1], x) || m[|m| - 1].name == x
  {
    if HasKey(m, x) && m[|m| - 1].name != x {
      var i :| 0 <= i < |m| && m[i].name == x;
      assert m[..|m| - 1][i].name == x;
    }
    if HasKey(m[..|m| - 1], x) {
      var i :| 0 <= i < |m| - 1 && m[..|m| - 1][i].name == x;
      assert m[i].name == x;
    }
  }

  /**
   * The merged yearly map has distinct keys, holds exactly the non-"Investments" categories of some
   * month, gives each the sum of its monthly amounts, and totals each month's categories without
   * "Investments".
   */
  lemma {:induction false} MergeMonthsMeaning(ss: seq<MonthlySummary>)
    ensures var r := MergeMonths(ss);
      DistinctKeys(r)
      && (forall x :: HasKey(r, x) <==> x != InvestmentsCategory && InSomeMonth(ss, x))
      && Total(r) == Sum(ss, NonInvestmentSpending)
      && (forall x :: Get(r, x) == if x != InvestmentsCategory then Sum(ss, MonthAmount(x)) else 0.0)
  {
    if ss != [] {
      MergeMonthsMeaning(ss[..|ss| - 1]);
      MergeCategoriesMeaning(MergeMonths(ss[..|ss| - 1]), ss[|ss| - 1].topCategories);
    }
  }

  /**
   * The distribution is sorted by amount and has distinct keys; it has an "Investments" entry,
   * holding the year's investments, exactly when asked for and the year's investments are positive;
   * its other categories are those some month lists, each with the sum of its monthly amounts.
   */
  lemma DistributionKeys(ss: seq<MonthlySummary>, year: int, includeInvestments: bool)
    ensures var d := Distribution(ss, year, includeInvestments);
      var invested := Sum(ss, SummaryInvestments);
      SortedDesc(d.topCategories) && DistinctKeys(d.topCategories)
      && (HasKey(d.topCategories, InvestmentsCategory) <==> includeInvestments && invested > 0.0)
      && Get(d.topCategories, InvestmentsCategory) == (if includeInvestments && invested > 0.0 then invested else 0.0)
      && (forall x :: x != InvestmentsCategory ==> (HasKey(d.topCategories, x) <==> InSomeMonth(ss, x)))
      && (forall x :: x != InvestmentsCategory ==> Get(d.topCategories, x) == Sum(ss, MonthAmount(x)))
      && d.totalInvestments == invested
  {
    var invested := Sum(ss, SummaryInvestments);
    var merged := MergeMonths(ss);
    MergeMonthsMeaning(ss);
    var m := if includeInvestments && invested > 0.0 then Put(merged, InvestmentsCategory, invested) else merged;
    if includeInvestments && invested > 0.0 {
      PutMeaning(merged, InvestmentsCategory, invested);
    }
    forall x ensures HasKey(SortDesc(m), x) <==> HasKey(m, x) {
      SortKeepsKeys(m, x);
    }
    SortKeepsDistinct(m);
    forall x ensures Get(SortDesc(m), x) == Get(m, x) {
      SortKeepsAmounts(m, x);
    }
  }

  /** The yearly expense total is the sum over the months of their categories without "Investments". */
  lemma DistributionTotal(ss: seq<MonthlySummary>, year: int, includeInvestments: bool)
    ensures Distribution(ss, year, includeInvestments).totalExpense == Sum(ss, NonInvestmentSpending)
  {
    var invested := Sum(ss, SummaryInvestments);
    var merged := MergeMonths(ss);
    MergeMonthsMeaning(ss);
    var m := if includeInvestments && invested > 0.0 then Put(merged, InvestmentsCategory, invested) else merged;
    PermutationKeepsTotalExcept(SortDesc(m), m, InvestmentsCategory);
    if includeInvestments && invested > 0.0 {
      PutKeepsTotalExcept(merged, InvestmentsCategory, invested);
    }
    TotalExceptMeaning(merged, InvestmentsCategory);
    AbsentGetsZero(merged, InvestmentsCategory);
  }

  /**
   * One month's categories without "Investments" total the month's expense less what was spent in a
   * category literally named "Investments" (which the investments entry, when present, replaces).
   */
  lemma MonthNonInvestmentSpending(ts: seq<Transaction>, ctx: Option<InvestmentContext>)
    ensures NonInvestmentSpending(Summary(ts, ctx)) == Summary(ts, ctx).totalExpense - CategorySpent(ts, InvestmentsCategory)
  {
    var s := Summary(ts, ctx);
    var totals := CategoryTotals(ts);
    CategoryTotalsMeaning(ts);
    var w := WithInvestments(totals, s.investments);
    PermutationKeepsTotalExcept(SortDesc(w), w, InvestmentsCategory);
    if s.investments > 0.0 {
      PutKeepsTotalExcept(totals, InvestmentsCategory, s.investments);
    }
    TotalExceptMeaning(totals, InvestmentsCategory);
  }

  /** Expense outside the "Investments" category over months 1..n of a year. */
  function SpendingOutsideInvestments(ts: seq<Transaction>, year: int, n: nat): real {
    if n == 0 then 0.0
    else
      var month := MonthTransactions(ts, year, n);
      SpendingOutsideInvestments(ts, year, n - 1) + (Sum(month, ExpenseAmount) - CategorySpent(month, InvestmentsCategory))
  }

  /**
   * The yearly distribution's expense total is the year's expense outside the "Investments"
   * category, whether or not investments are included.
   */
  lemma YearlyExpenseOutsideInvestments(ts: seq<Transaction>, invs: seq<Investment>, year: int, includeInvestments: bool)
    ensures Distribution(YearMonths(ts, invs, year), year, includeInvestments).totalExpense
      == SpendingOutsideInvestments(ts, year, 12)
  {
    DistributionTotal(YearMonths(ts, invs, year), year, includeInvestments);
    MonthsSpending(ts, invs, year, 12);
    assert YearMonths(ts, invs, year)[..12] == YearMonths(ts, invs, year);
  }

  lemma {:induction false} MonthsSpending(ts: seq<Transaction>, invs: seq<Investment>, year: int, n: nat)
    requires n <= 12
    ensures Sum(YearMonths(ts, invs, year)[..n], NonInvestmentSpending) == SpendingOutsideInvestments(ts, year, n)
  {
    var ys := YearMonths(ts, invs, year);
    if n == 0 {
      assert ys[..0] == [];
    } else {
      MonthsSpending(ts, invs, year, n - 1);
      assert ys[..n][..n - 1] == ys[..n - 1];
      assert ys[n - 1] == MonthSummary(ts, invs, year, n);
      MonthNonInvestmentSpending(MonthTransactions(ts, year, n), Some(InvestmentContext(invs, year, n)));
    }
  }

  /** What the transactions of months 1..n of a year spent in category x. */
  function SpentOverMonths(ts: seq<Transaction>, year: int, x: string, n: nat): real {
    if n == 0 then 0.0 else SpentOverMonths(ts, year, x, n - 1) + CategorySpent(MonthTransactions(ts, year, n), x)
  }

  /** A month lists under a category other than "Investments" what its transactions spent in it. */
  lemma MonthCategoryAmount(ts: seq<Transaction>, ctx: Option<InvestmentContext>, x: string)
    requires x != InvestmentsCategory
    ensures MonthAmount(x)(Summary(ts, ctx)) == CategorySpent(ts, x)
  {
    var s := Summary(ts, ctx);
    TopCategories(ts, ctx);
    var w := WithInvestments(CategoryTotals(ts), s.investments);
    SumPermutation(s.topCategories, w, Only(x));
    GetIsSumOfOnly(w, x);
  }

  lemma {:induction false} MonthsCategoryAmount(ts: seq<Transaction>, invs: seq<Investment>, year: int, x: string, n: nat)
    requires n <= 12 && x != InvestmentsCategory
    ensures Sum(YearMonths(ts, invs, year)[..n], MonthAmount(x)) == SpentOverMonths(ts, year, x, n)
  {
    var ys := YearMonths(ts, invs, year);
    if n == 0 {
      assert ys[..0] == [];
    } else {
      MonthsCategoryAmount(ts, invs, year, x, n - 1);
      assert ys[..n][..n - 1] == ys[..n - 1];
      assert ys[n - 1] == MonthSummary(ts, invs, year, n);
      MonthCategoryAmount(MonthTransactions(ts, year, n), Some(InvestmentContext(invs, year, n)), x);
    }
  }

  /**
   * Each category other than "Investments" gets, in the yearly distribution, what the year's
   * transactions spent in it month by month.
   */
  lemma YearlyCategoryAmounts(ts: seq<Transaction>, invs: seq<Investment>, year: int, includeInvestments: bool)
    ensures var d := Distribution(YearMonths(ts, invs, year), year, includeInvestments);
      forall x :: x != InvestmentsCategory ==> Get(d.topCategories, x) == SpentOverMonths(ts, year, x, 12)
  {
    var ys := YearMonths(ts, invs, year);
    DistributionKeys(ys, year, includeInvestments);
    assert ys[..12] == ys;
    forall x | x != InvestmentsCategory ensures Sum(ys, MonthAmount(x)) == SpentOverMonths(ts, year, x, 12) {
      MonthsCategoryAmount(ts, invs, year, x, 12);
    }
  }
}
