/**
 * The backend's stored entities (the SQLAlchemy models), each as a row: an integer primary
 * key and the data the row carries. Amounts are exact reals, dates are calendar dates.
 * String-valued columns (`type`, `payment_method`, `recurring_type`, ...) stay strings, as the
 * columns hold whatever string was written.
 */
module Domain {
  import opened Wrappers
  import opened Dates

  datatype Row<P> = Row(id: int, data: P)

  function RowId<P>(r: Row<P>): int {
    r.id
  }

  const Income := "income"
  const Expense := "expense"
  const Monthly := "monthly"
  const Yearly := "yearly"

  /** A transaction; `kind` is the `type` column. */
  datatype TransactionData = TransactionData(
    date: CalendarDate,
    amount: real,
    kind: string,
    category: string,
    description: Option<string>,
    paymentMethod: string,
    creditCardId: Option<int>)

  type Transaction = Row<TransactionData>

  datatype CreditCardData = CreditCardData(
    name: string,
    bankName: string,
    billingCycleStart: int,
    billingCycleEnd: int,
    dueDate: int,
    creditLimit: real)

  type CreditCard = Row<CreditCardData>

  /** The fields a client may write (the create/update payload of a savings investment). */
  datatype InvestmentPayload = InvestmentPayload(
    name: string,
    investmentType: string,
    purchaseDate: CalendarDate,
    initialAmount: real,
    currentValue: real,
    description: Option<string>,
    isRecurring: bool,
    recurringType: Option<string>,
    recurringAmount: Option<real>)

  /** A stored savings investment: the payload fields plus the server-kept `last_recurring_date`. */
  datatype InvestmentData = InvestmentData(
    name: string,
    investmentType: string,
    purchaseDate: CalendarDate,
    initialAmount: real,
    currentValue: real,
    description: Option<string>,
    isRecurring: bool,
    recurringType: Option<string>,
    recurringAmount: Option<real>,
    lastRecurringDate: Option<CalendarDate>)

  type Investment = Row<InvestmentData>

  /** Every payload field written over a stored investment; `last_recurring_date` is not a payload field. */
  function WithPayload(p: InvestmentPayload, last: Option<CalendarDate>): InvestmentData {
    InvestmentData(p.name, p.investmentType, p.purchaseDate, p.initialAmount, p.currentValue,
                   p.description, p.isRecurring, p.recurringType, p.recurringAmount, last)
  }

  /** The salary fields the monthly posting reads and writes. */
  datatype SalaryData = SalaryData(
    name: string,
    amount: real,
    isActive: bool,
    lastAddedDate: Option<CalendarDate>)

  type Salary = Row<SalaryData>

  /** `x if x else 0` for a nullable amount: null and zero both count as zero. */
  function AmountOrZero(a: Option<real>): real {
    if a.Some? then a.value else 0.0
  }
}
