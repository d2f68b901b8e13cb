/**
 * The savings comparison: this month's account balance (income minus expense over the current
 * calendar month) against the money put into investments, and the investments' profit or loss.
 */
module SavingsComparison {
  import opened Wrappers
  import opened Dates
  import opened Sums
  import opened Domain
  import opened Crud
  import opened Analytics

  function InitialAmount(i: Investment): real { i.data.initialAmount }
  function CurrentValue(i: Investment): real { i.data.currentValue }

  /** What one investment has gained (or, when negative, lost) since purchase. */
  function ProfitLoss(i: Investment): real { i.data.currentValue - i.data.initialAmount }

  datatype Comparison = Comparison(
    accountBalance: real,
    totalInvested: real,
    totalCurrentInvestmentValue: real,
    investmentProfitLoss: real,
    cashSavings: real,
    difference: real)

  /**
   * `calculate_savings_comparison`: `today` is the clock reading, `ts` all transactions and `invs`
   * all investments. The month window is the one `get_transactions_by_month` uses.
   */
  function CalculateSavingsComparison(ts: seq<Transaction>, invs: seq<Investment>, today: CalendarDate): (r: Comparison)
    ensures r.cashSavings == r.difference == r.accountBalance - r.totalInvested
    ensures r.investmentProfitLoss == r.totalCurrentInvestmentValue - r.totalInvested
  {
    var current := MonthTransactions(ts, today.year, today.month);
    var balance := Sum(current, IncomeAmount) - Sum(current, ExpenseAmount);
    var invested := Sum(invs, InitialAmount);
    var value := Sum(invs, CurrentValue);
    Comparison(balance, invested, value, value - invested, balance - invested, balance - invested)
  }

  /**
   * The balance is taken over exactly the transactions dated in today's month, and equals the
   * savings the monthly summary of that month reports when no investments are counted.
   */
  lemma BalanceIsMonthSavings(ts: seq<Transaction>, invs: seq<Investment>, today: CalendarDate)
    ensures forall t :: t in MonthTransactions(ts, today.year, today.month) <==>
      t in ts && t.data.date.year == today.year && t.data.date.month == today.month
    ensures CalculateSavingsComparison(ts, invs, today).accountBalance ==
      Summary(MonthTransactions(ts, today.year, today.month), None).savings
  {
    NoContextNoInvestments(MonthTransactions(ts, today.year, today.month), None);
  }

  /** The total profit or loss is the sum of the per-investment profits and losses. */
  lemma ProfitLossAddsUp(ts: seq<Transaction>, invs: seq<Investment>, today: CalendarDate)
    ensures CalculateSavingsComparison(ts, invs, today).investmentProfitLoss == Sum(invs, ProfitLoss)
  {
    SumDifference(invs, CurrentValue, InitialAmount, ProfitLoss);
  }
}
