/**
 * What the savings page derives from its data: the investment table's totals and per-row profit or
 * loss, and the comparison card's signs and status message. A value counts as a gain, with a `'+'`
 * prefix and green styling, exactly when it is at least zero.
 *
 * The table's percentage divides by the purchase amount without a guard. `PercentAsWritten` keeps
 * that division under JavaScript's rules (an infinity or NaN for a zero purchase amount);
 * `ProfitLossPercent` is the guarded percentage the rows use.
 */
module SavingsViews {
  import opened Wrappers
  import opened Sums
  import opened JsValues
  import opened ClientTypes
  import opened SavingsComparison

  /** The `'+'` shown before an amount: present exactly for amounts of zero or more. */
  function SignPrefix(x: real): (s: string)
    ensures s == "+" <==> x >= 0.0
    ensures s == "" <==> x < 0.0
  {
    if x >= 0.0 then "+" else ""
  }

  function InitialOf(i: ClientInvestment): real { i.initialAmount }
  function CurrentOf(i: ClientInvestment): real { i.currentValue }

  /** A row's profit or loss: what the investment is worth now over what was paid. */
  function RowProfitLoss(i: ClientInvestment): real { i.currentValue - i.initialAmount }

  datatype Totals = Totals(totalInitial: real, totalCurrent: real, totalProfitLoss: real, prefix: string)

  /** The three summary cards; an empty list shows only "No investments recorded yet" and no totals. */
  function TableTotals(invs: seq<ClientInvestment>): (r: Option<Totals>)
    ensures r.None? <==> invs == []
    ensures r.Some? ==>
      r.value.totalInitial == Sum(invs, InitialOf) && r.value.totalCurrent == Sum(invs, CurrentOf)
      && r.value.totalProfitLoss == r.value.totalCurrent - r.value.totalInitial
      && (r.value.prefix == "+" <==> r.value.totalProfitLoss >= 0.0)
  {
    if invs == [] then None
    else
      var initial := Sum(invs, InitialOf);
      var current := Sum(invs, CurrentOf);
      Some(Totals(initial, current, current - initial, SignPrefix(current - initial)))
  }

  /** The total profit or loss is the sum of the rows' profits and losses. */
  lemma TotalIsSumOfRows(invs: seq<ClientInvestment>)
    requires invs != []
    ensures TableTotals(invs).value.totalProfitLoss == Sum(invs, RowProfitLoss)
  {
    SumDifference(invs, CurrentOf, InitialOf, RowProfitLoss);
  }

  /** `(profitLoss / initial_amount) * 100` as written: with a zero purchase amount it is not a finite number. */
  function PercentAsWritten(i: ClientInvestment): (r: JsNumber)
    ensures i.initialAmount != 0.0 ==> r.Finite? && r.value * i.initialAmount == RowProfitLoss(i) * 100.0
    ensures i.initialAmount == 0.0 ==> !r.Finite?
    ensures i.initialAmount == 0.0 && RowProfitLoss(i) == 0.0 ==> r == NaN
  {
    Scale(Divide(RowProfitLoss(i), i.initialAmount), 100.0)
  }

  /** The percentage with the division guarded: there is none for a zero purchase amount. */
  function ProfitLossPercent(i: ClientInvestment): (r: Option<real>)
    ensures r.Some? <==> i.initialAmount != 0.0
    ensures r.Some? ==> r.value * i.initialAmount == RowProfitLoss(i) * 100.0
    ensures r.Some? ==> PercentAsWritten(i) == Finite(r.value)
  {
    if i.initialAmount == 0.0 then None else Some(RowProfitLoss(i) / i.initialAmount * 100.0)
  }

  /** A purchase recorded at 0 and now worth 500 shows "Infinity%"; one still worth 0 shows "NaN%". */
  lemma ZeroPurchasePercent()
    ensures var gift := ClientInvestment(1, "Gift", "other", "2024-01-01", 0.0, 500.0, None, false, None, None, None, "", "");
      PercentAsWritten(gift) == PosInfinity && ProfitLossPercent(gift) == None
    ensures var empty := ClientInvestment(2, "Empty", "other", "2024-01-01", 0.0, 0.0, None, false, None, None, None, "", "");
      PercentAsWritten(empty) == NaN && ProfitLossPercent(empty) == None
  {
  }

  /** A loss or gain relative to the purchase: the percentage has the sign of the profit when the purchase amount is positive. */
  lemma PercentHasProfitSign(i: ClientInvestment)
    requires i.initialAmount > 0.0
    ensures ProfitLossPercent(i).Some?
    ensures ProfitLossPercent(i).value >= 0.0 <==> RowProfitLoss(i) >= 0.0
    ensures i.currentValue == 0.0 ==> ProfitLossPercent(i).value == -100.0
  {
    QuotientSign(ProfitLossPercent(i).value, i.initialAmount, RowProfitLoss(i));
  }

  lemma ZeroProduct(d: real, a: real)
    requires a > 0.0 && d * a == 0.0
    ensures d == 0.0
  {
  }

  lemma QuotientSign(p: real, a: real, pl: real)
    requires a > 0.0 && p * a == pl * 100.0
    ensures p >= 0.0 <==> pl >= 0.0
    ensures pl == -a ==> p == -100.0
  {
    if p < 0.0 {
      assert (0.0 - p) * a > 0.0;
    }
    if pl == -a {
      assert (p + 100.0) * a == p * a + 100.0 * a;
      ZeroProduct(p + 100.0, a);
    }
  }

  datatype RowView = RowView(id: int, profitLoss: real, percent: Option<real>, prefix: string)

  /** One table row: profit or loss, its guarded percentage and its sign prefix. */
  function Row(i: ClientInvestment): (r: RowView)
    ensures r.id == i.id && r.profitLoss == i.currentValue - i.initialAmount
    ensures r.percent == ProfitLossPercent(i)
    ensures r.prefix == "+" <==> i.currentValue >= i.initialAmount
  {
    RowView(i.id, RowProfitLoss(i), ProfitLossPercent(i), SignPrefix(RowProfitLoss(i)))
  }

  /** An investment still worth what it cost shows no gain or loss, the `'+'` prefix, and 0% when it cost something. */
  lemma EvenRow(i: ClientInvestment)
    requires i.currentValue == i.initialAmount
    ensures Row(i).profitLoss == 0.0 && Row(i).prefix == "+"
    ensures i.initialAmount != 0.0 ==> Row(i).percent == Some(0.0)
  {
    var r := ProfitLossPercent(i);
    if r.Some? {
      assert r.value * i.initialAmount == 0.0;
      if i.initialAmount > 0.0 {
        ZeroProduct(r.value, i.initialAmount);
      } else {
        assert (-r.value) * (-i.initialAmount) == 0.0;
        ZeroProduct(-r.value, -i.initialAmount);
      }
    }
  }

  /** The table body: one row per investment, in order. */
  function Rows(invs: seq<ClientInvestment>): (r: seq<RowView>)
    ensures |r| == |invs|
    ensures forall k :: 0 <= k < |invs| ==> r[k] == Row(invs[k])
  {
    if invs == [] then [] else [Row(invs[0])] + Rows(invs[1..])
  }

  function Abs(x: real): (r: real)
    ensures r >= 0.0 && (r == x || r == -x)
  {
    if x >= 0.0 then x else -x
  }

  /** The status line: the liquid savings left after investing, or by how much investments exceed the balance. */
  datatype StatusMessage = LiquidSavings(amount: real) | InvestmentsExceedBalance(amount: real)

  datatype ComparisonView = ComparisonView(
    balancePrefix: string,
    profitLossPositive: bool,
    profitLossPrefix: string,
    isAccountAhead: bool,
    cashPrefix: string,
    status: StatusMessage)

  /** `SavingsComparisonCard`: zero cash savings count as being ahead. */
  function ComparisonCard(c: Comparison): (r: ComparisonView)
    ensures r.isAccountAhead <==> c.cashSavings >= 0.0
    ensures r.profitLossPositive <==> c.investmentProfitLoss >= 0.0
    ensures r.profitLossPrefix == "+" <==> r.profitLossPositive
    ensures r.balancePrefix == "+" <==> c.accountBalance >= 0.0
    ensures r.cashPrefix == "+" <==> r.isAccountAhead
    ensures r.status.LiquidSavings? <==> r.isAccountAhead
    ensures r.status.amount >= 0.0 && (r.status.amount == c.cashSavings || r.status.amount == -c.cashSavings)
  {
    var ahead := c.cashSavings >= 0.0;
    var positive := c.investmentProfitLoss >= 0.0;
    ComparisonView(
      SignPrefix(c.accountBalance),
      positive,
      if positive then "+" else "",
      ahead,
      if ahead then "+" else "",
      if ahead then LiquidSavings(Abs(c.cashSavings)) else InvestmentsExceedBalance(Abs(c.cashSavings)))
  }

  /**
   * On the server's comparison, the card shows the account ahead exactly when this month's balance
   * covers everything invested, and a positive profit exactly when the investments are worth at
   * least what was paid for them.
   */
  lemma CardReadsComparison(ts: seq<Domain.Transaction>, invs: seq<Domain.Investment>, today: Dates.CalendarDate)
    ensures var c := CalculateSavingsComparison(ts, invs, today);
      (ComparisonCard(c).isAccountAhead <==> c.accountBalance >= c.totalInvested)
      && (ComparisonCard(c).profitLossPositive <==> Sum(invs, CurrentValue) >= Sum(invs, InitialAmount))
  {
  }
}
