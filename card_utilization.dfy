/**
 * Credit-card utilisation: the current billing cycle of a card around `today`, the card's expense
 * transactions inside that cycle, the spent amount as a percentage of the credit limit, and the
 * days left until the due day.
 *
 * The cycle is computed twice. `CycleAsWritten` follows the code as it stands, which passes
 * `year - 1` (or `year + 1`) as the month argument when the previous (or next) month falls in
 * another year, so `date(...)` raises in January and December. `Cycle` is the evidently intended
 * computation with the month wrapped into the adjacent year; the utilisation report uses it.
 */
module CardUtilization {
  import opened Wrappers
  import opened Dates
  import opened Sums
  import opened Records
  import opened Domain

  /** Both cycle bounds; `None` stands for the `ValueError` raised by one of the `date(...)` calls. */
  datatype CycleBounds = CycleBounds(start: CalendarDate, end: CalendarDate)

  /** The billing cycle exactly as written: the month argument becomes `year - 1` / `year + 1` at the year's ends. */
  function CycleAsWritten(today: CalendarDate, startDay: int, endDay: int): (r: Option<CycleBounds>)
    ensures r.Some? ==> r.value.start.day == startDay && r.value.end.day == endDay
  {
    var year, month := today.year, today.month;
    var first := MakeDate(year, month, startDay);
    if first.None? then None
    else
      var cycleStart :=
        if today.day < startDay then MakeDate(year, if month > 1 then month - 1 else year - 1, startDay)
        else first;
      var cycleEnd :=
        if endDay < startDay && today.day >= startDay then MakeDate(year, if month < 12 then month + 1 else year + 1, endDay)
        else MakeDate(year, month, endDay);
      if cycleStart.None? || cycleEnd.None? then None
      else Some(CycleBounds(cycleStart.value, cycleEnd.value))
  }

  /** The billing cycle with the adjacent month wrapped into the adjacent year. */
  function Cycle(today: CalendarDate, startDay: int, endDay: int): Option<CycleBounds> {
    var year, month := today.year, today.month;
    var first := MakeDate(year, month, startDay);
    if first.None? then None
    else
      var prev := PreviousMonth(year, month);
      var next := NextMonth(year, month);
      var cycleStart := if today.day < startDay then MakeDate(prev.0, prev.1, startDay) else first;
      var cycleEnd :=
        if endDay < startDay && today.day >= startDay then MakeDate(next.0, next.1, endDay)
        else MakeDate(year, month, endDay);
      if cycleStart.None? || cycleEnd.None? then None
      else Some(CycleBounds(cycleStart.value, cycleEnd.value))
  }

  /** In January, a day before the cycle start makes the code ask for month `year - 1`, which raises. */
  lemma JanuaryCycleRaises()
    ensures CycleAsWritten(Date(2024, 1, 5), 10, 5) == None
    ensures Cycle(Date(2024, 1, 5), 10, 5) == Some(CycleBounds(Date(2023, 12, 10), Date(2024, 1, 5)))
  {
  }

  /** In December, a cycle spanning two months makes the code ask for month `year + 1`, which raises. */
  lemma DecemberCycleRaises()
    ensures CycleAsWritten(Date(2024, 12, 20), 15, 10) == None
    ensures Cycle(Date(2024, 12, 20), 15, 10) == Some(CycleBounds(Date(2024, 12, 15), Date(2025, 1, 10)))
  {
  }

  /** Away from January and December the code as written computes the intended cycle. */
  lemma CycleAgreesMidYear(today: CalendarDate, startDay: int, endDay: int)
    requires 1 < today.month < 12
    ensures CycleAsWritten(today, startDay, endDay) == Cycle(today, startDay, endDay)
  {
  }

  /**
   * The intended cycle starts on the start day of this month, or of the previous month when today
   * comes before it, so it never starts after today; it ends on the end day of this month, or of
   * the next month when the cycle spans two months and has already begun.
   */
  lemma CycleBoundsMeaning(today: CalendarDate, startDay: int, endDay: int)
    requires Cycle(today, startDay, endDay).Some?
    ensures var c := Cycle(today, startDay, endDay).value;
      c.start.day == startDay && c.end.day == endDay
      && MonthIndex(c.start.year, c.start.month) == MonthIndex(today.year, today.month) - (if today.day < startDay then 1 else 0)
      && MonthIndex(c.end.year, c.end.month) == MonthIndex(today.year, today.month) + (if endDay < startDay && today.day >= startDay then 1 else 0)
      && AtOrBefore(c.start, today)
      && (endDay < startDay && today.day >= startDay ==> Before(today, c.end))
  {
    var c := Cycle(today, startDay, endDay).value;
    if today.day < startDay {
      assert MonthIndex(c.start.year, c.start.month) == MonthIndex(today.year, today.month) - 1;
      assert Before(c.start, today);
    }
    if endDay < startDay && today.day >= startDay {
      assert MonthIndex(c.end.year, c.end.month) == MonthIndex(today.year, today.month) + 1;
      assert Before(today, c.end);
    }
  }

  /**
   * Billing days that exist in every month always give a cycle, away from the ends of Python's year
   * range; a day no month has never does.
   */
  lemma CycleDefined(today: CalendarDate, startDay: int, endDay: int)
    ensures MinYear < today.year < MaxYear && 1 <= startDay <= 28 && 1 <= endDay <= 28 ==> Cycle(today, startDay, endDay).Some?
    ensures !(1 <= startDay <= 31) || !(1 <= endDay <= 31) ==> Cycle(today, startDay, endDay).None?
  {
  }

  /** A transaction the cycle query selects: this card's expense dated within the cycle, both ends included. */
  predicate InCardCycle(t: Transaction, cardId: int, c: CycleBounds) {
    t.data.creditCardId == Some(cardId) && t.data.kind == Expense
    && AtOrBefore(c.start, t.data.date) && AtOrBefore(t.data.date, c.end)
  }

  function CardTransactions(ts: seq<Transaction>, cardId: int, c: CycleBounds): (r: seq<Transaction>)
    ensures forall t :: t in r <==> t in ts && InCardCycle(t, cardId, c)
  {
    Filter(ts, t => InCardCycle(t, cardId, c))
  }

  function TransactionAmount(t: Transaction): real {
    t.data.amount
  }

  /** `(card_spent / credit_limit) * 100 if credit_limit > 0 else 0`. */
  function UtilizationPercent(spent: real, limit: real): (p: real)
    ensures limit > 0.0 ==> p * limit == spent * 100.0
    ensures limit <= 0.0 ==> p == 0.0
  {
    if limit > 0.0 then (spent / limit) * 100.0 else 0.0
  }

  /** Spending within the limit is 0 to 100 percent; spending over it is more than 100 percent. */
  lemma PercentBounds(spent: real, limit: real)
    requires limit > 0.0
    ensures 0.0 <= spent <= limit ==> 0.0 <= UtilizationPercent(spent, limit) <= 100.0
    ensures spent > limit ==> UtilizationPercent(spent, limit) > 100.0
  {
    var p := UtilizationPercent(spent, limit);
    if p > 100.0 {
      assert (p - 100.0) * limit > 0.0;
    } else {
      assert (100.0 - p) * limit >= 0.0;
    }
    if p < 0.0 {
      assert (0.0 - p) * limit > 0.0;
    }
  }

  /** `(due_date - today.day) % 30` with Python's modulo, which is never negative for a positive divisor. */
  function DaysToDue(dueDay: int, todayDay: int): (r: int)
    ensures 0 <= r < 30
    ensures 0 <= dueDay - todayDay < 30 ==> r == dueDay - todayDay
    ensures -30 <= dueDay - todayDay < 0 ==> r == dueDay - todayDay + 30
  {
    (dueDay - todayDay) % 30
  }

  datatype Utilization = Utilization(
    cardId: int,
    cardName: string,
    creditLimit: real,
    amountSpent: real,
    utilizationPercent: real,
    daysToDue: int)

  /** No such card (the endpoint's `None`), a cycle date that does not exist, or the report. */
  datatype UtilizationResult = NoCard | InvalidCycleDate | Report(utilization: Utilization)

  /** `calculate_credit_card_utilization`, over the card table and all transactions, with the intended cycle. */
  function CalculateCreditCardUtilization(cards: seq<CreditCard>, ts: seq<Transaction>, cardId: int, today: CalendarDate)
    : (r: UtilizationResult)
    ensures r.NoCard? <==> !HasId(cards, RowId, cardId)
    ensures r.InvalidCycleDate? <==> (HasId(cards, RowId, cardId) &&
      var card := FindById(cards, RowId, cardId).value;
      Cycle(today, card.data.billingCycleStart, card.data.billingCycleEnd).None?)
    ensures r.Report? ==>
      var card := FindById(cards, RowId, cardId).value;
      var c := Cycle(today, card.data.billingCycleStart, card.data.billingCycleEnd);
      c.Some?
      && r.utilization.cardId == cardId && r.utilization.cardName == card.data.name
      && r.utilization.creditLimit == card.data.creditLimit
      && r.utilization.amountSpent == Sum(CardTransactions(ts, cardId, c.value), TransactionAmount)
      && (card.data.creditLimit > 0.0 ==> r.utilization.utilizationPercent * card.data.creditLimit == r.utilization.amountSpent * 100.0)
      && (card.data.creditLimit <= 0.0 ==> r.utilization.utilizationPercent == 0.0)
      && 0 <= r.utilization.daysToDue < 30
      && (card.data.dueDate - today.day - r.utilization.daysToDue) % 30 == 0
  {
    var found := FindById(cards, RowId, cardId);
    if found.None? then NoCard
    else
      var card := found.value.data;
      var c := Cycle(today, card.billingCycleStart, card.billingCycleEnd);
      if c.None? then InvalidCycleDate
      else
        var spent := Sum(CardTransactions(ts, cardId, c.value), TransactionAmount);
        Report(Utilization(cardId, card.name, card.creditLimit, spent,
                           UtilizationPercent(spent, card.creditLimit), DaysToDue(card.dueDate, today.day)))
  }
}
