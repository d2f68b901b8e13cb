/**
 * The records the client receives from the server, the outcome of a request, and the outcome of a
 * hook operation that either returns a value or rethrows the request's error.
 */
module ClientTypes {
  import opened Wrappers

  datatype ClientTransaction = ClientTransaction(
    id: int,
    date: string,
    amount: real,
    kind: string,
    category: string,
    description: Option<string>,
    paymentMethod: string,
    creditCardId: Option<int>,
    createdAt: string)

  datatype ClientCard = ClientCard(
    id: int,
    name: string,
    bankName: string,
    billingCycleStart: int,
    billingCycleEnd: int,
    dueDate: int,
    creditLimit: real,
    createdAt: string)

  datatype ClientInvestment = ClientInvestment(
    id: int,
    name: string,
    investmentType: string,
    purchaseDate: string,
    initialAmount: real,
    currentValue: real,
    description: Option<string>,
    isRecurring: bool,
    recurringType: Option<string>,
    recurringAmount: Option<real>,
    lastRecurringDate: Option<string>,
    createdAt: string,
    updatedAt: string)

  datatype ClientSalary = ClientSalary(
    id: int,
    name: string,
    amount: real,
    startDate: Option<string>,
    isActive: bool,
    description: Option<string>,
    lastAddedDate: Option<string>,
    createdAt: string,
    updatedAt: string)

  datatype ClientPayment = ClientPayment(
    id: int,
    creditCardId: int,
    paymentDate: string,
    amount: real,
    paymentMethod: string,
    description: Option<string>,
    transactionId: Option<int>,
    createdAt: string)

  function TransactionId(t: ClientTransaction): int { t.id }
  function CardId(c: ClientCard): int { c.id }
  function InvestmentId(i: ClientInvestment): int { i.id }
  function SalaryId(s: ClientSalary): int { s.id }
  function PaymentId(p: ClientPayment): int { p.id }

  /** What a rejected request throws: an `Error` carrying a message, or any other value. */
  datatype Thrown = ErrorObject(message: string) | OtherValue

  /** The settled outcome of one request to the server, decided outside the client. */
  datatype Reply<T> = Ok(value: T) | Failed(error: Thrown)

  /** How a hook operation ends for its caller: with a value, or by rethrowing. */
  datatype Settled<T> = Resolved(value: T) | Rejected(error: Thrown)

  /** `err instanceof Error ? err.message : fallback`. */
  function ErrorText(e: Thrown, fallback: string): (r: string)
    ensures e.ErrorObject? ==> r == e.message
    ensures e.OtherValue? ==> r == fallback
  {
    match e
    case ErrorObject(m) => m
    case OtherValue => fallback
  }

  /**
   * A table's or list's `handleDelete`: the delete callback runs with the row's id only when the
   * confirmation dialog returns true; a rejection of the callback is caught and only logged.
   */
  function ConfirmedDelete(confirmed: bool, id: int): (r: Option<int>)
    ensures r.Some? <==> confirmed
    ensures r.Some? ==> r.value == id
  {
    if confirmed then Some(id) else None
  }
}
