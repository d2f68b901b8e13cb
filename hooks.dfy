/**
 * The client's five data hooks. Each keeps a local copy of one server collection with a `loading`
 * flag and an `error` message, and updates the copy from the server's reply: a fetch replaces it,
 * a create appends the returned record, an update replaces the records carrying the id, a delete
 * filters them out, and a failed request leaves the copy as it was.
 *
 * A hook operation runs to completion here: the server's reply to each request is a parameter,
 * and what a caller observes afterwards is the final state and the returned `Settled` outcome.
 */
module Hooks {
  import opened Wrappers
  import opened Records
  import opened ClientTypes
  import opened SavingsComparison

  const FetchTransactionsFailed := "Failed to fetch transactions"
  const AddTransactionFailed := "Failed to add transaction"
  const UpdateTransactionFailed := "Failed to update transaction"
  const DeleteTransactionFailed := "Failed to delete transaction"

  const FetchCardsFailed := "Failed to fetch credit cards"
  const AddCardFailed := "Failed to add credit card"
  const UpdateCardFailed := "Failed to update credit card"
  const DeleteCardFailed := "Failed to delete credit card"

  const FetchSavingsFailed := "Failed to fetch savings data"
  const AddInvestmentFailed := "Failed to add investment"
  const UpdateInvestmentFailed := "Failed to update investment"
  const DeleteInvestmentFailed := "Failed to delete investment"
  const InvestmentNotFound := "Investment not found"

  const FetchSalariesFailed := "Failed to fetch salaries"
  const CreateSalaryFailed := "Failed to create salary"
  const UpdateSalaryFailed := "Failed to update salary"
  const DeleteSalaryFailed := "Failed to delete salary"

  const FetchPaymentsFailed := "Failed to fetch payments"
  const AddPaymentFailed := "Failed to add payment"
  const DeletePaymentFailed := "Failed to delete payment"
  const UpdatePaymentFailed := "Failed to update payment"

  /** `useTransactions(year, month)`: the transactions of one calendar month. */
  class TransactionsHook {
    var year: int
    var month: int
    var transactions: seq<ClientTransaction>
    var loading: bool
    var error: Option<string>

    /** Mounting starts from an empty list and runs the month's fetch. */
    constructor(year: int, month: int, reply: Reply<seq<ClientTransaction>>)
      ensures this.year == year && this.month == month && !loading
      ensures reply.Ok? ==> transactions == reply.value && error == None
      ensures reply.Failed? ==> transactions == [] && error == Some(FetchTransactionsFailed)
    {
      this.year := year;
      this.month := month;
      transactions := [];
      loading := false;
      error := None;
      new;
      Fetch(reply);
    }

    /** The effect's fetch of `(year, month)`: the reply replaces the list, a failure only records its message. */
    method Fetch(reply: Reply<seq<ClientTransaction>>)
      modifies this
      ensures year == old(year) && month == old(month) && !loading
      ensures reply.Ok? ==> transactions == reply.value && error == None
      ensures reply.Failed? ==> transactions == old(transactions) && error == Some(FetchTransactionsFailed)
    {
      loading := true;
      match reply {
      case Ok(ts) =>
        transactions := ts;
        error := None;
      case Failed(_) =>
        error := Some(FetchTransactionsFailed);
      }
      loading := false;
    }

    /** A render with new arguments: the effect re-runs, and fetches, exactly when year or month changed. */
    method Rerender(newYear: int, newMonth: int, reply: Reply<seq<ClientTransaction>>)
      modifies this
      ensures year == newYear && month == newMonth
      ensures newYear == old(year) && newMonth == old(month) ==>
        transactions == old(transactions) && error == old(error) && loading == old(loading)
      ensures (newYear != old(year) || newMonth != old(month)) ==>
        !loading
        && (reply.Ok? ==> transactions == reply.value && error == None)
        && (reply.Failed? ==> transactions == old(transactions) && error == Some(FetchTransactionsFailed))
    {
      if newYear != year || newMonth != month {
        year, month := newYear, newMonth;
        Fetch(reply);
      }
    }

    /** `addTransaction`: the created record is appended; a failure records its message and rethrows. */
    method AddTransaction(created: Reply<ClientTransaction>) returns (r: Settled<ClientTransaction>)
      modifies this
      ensures year == old(year) && month == old(month) && loading == old(loading)
      ensures created.Ok? ==>
        transactions == old(transactions) + [created.value] && error == old(error) && r == Resolved(created.value)
      ensures created.Failed? ==>
        transactions == old(transactions) && error == Some(AddTransactionFailed) && r == Rejected(created.error)
    {
      match created {
      case Ok(t) =>
        transactions := transactions + [t];
        r := Resolved(t);
      case Failed(e) =>
        error := Some(AddTransactionFailed);
        r := Rejected(e);
      }
    }

    /** `updateTransaction`: every record carrying `id` becomes the server's record. */
    method UpdateTransaction(id: int, updated: Reply<ClientTransaction>) returns (r: Settled<ClientTransaction>)
      modifies this
      ensures year == old(year) && month == old(month) && loading == old(loading)
      ensures updated.Ok? ==>
        transactions == ReplaceById(old(transactions), TransactionId, id, updated.value)
        && error == old(error) && r == Resolved(updated.value)
      ensures updated.Failed? ==>
        transactions == old(transactions) && error == Some(UpdateTransactionFailed) && r == Rejected(updated.error)
    {
      match updated {
      case Ok(t) =>
        transactions := ReplaceById(transactions, TransactionId, id, t);
        r := Resolved(t);
      case Failed(e) =>
        error := Some(UpdateTransactionFailed);
        r := Rejected(e);
      }
    }

    /** `deleteTransaction`: the records carrying `id` are dropped once the server has deleted it. */
    method DeleteTransaction(id: int, deleted: Reply<()>) returns (r: Settled<()>)
      modifies this
      ensures year == old(year) && month == old(month) && loading == old(loading)
      ensures deleted.Ok? ==>
        transactions == RemoveById(old(transactions), TransactionId, id) && error == old(error) && r == Resolved(())
      ensures deleted.Failed? ==>
        transactions == old(transactions) && error == Some(DeleteTransactionFailed) && r == Rejected(deleted.error)
    {
      match deleted {
      case Ok(_) =>
        transactions := RemoveById(transactions, TransactionId, id);
        r := Resolved(());
      case Failed(e) =>
        error := Some(DeleteTransactionFailed);
        r := Rejected(e);
      }
    }
  }

  /** `useCreditCards()`: all credit cards. */
  class CreditCardsHook {
    var cards: seq<ClientCard>
    var loading: bool
    var error: Option<string>

    /** Mounting runs the one fetch of all cards. */
    constructor(reply: Reply<seq<ClientCard>>)
      ensures !loading
      ensures reply.Ok? ==> cards == reply.value && error == None
      ensures reply.Failed? ==> cards == [] && error == Some(FetchCardsFailed)
    {
      loading := true;
      match reply {
      case Ok(cs) =>
        cards := cs;
        error := None;
      case Failed(_) =>
        cards := [];
        error := Some(FetchCardsFailed);
      }
      loading := false;
    }

    /** `addCard`: the created card is appended. */
    method AddCard(created: Reply<ClientCard>) returns (r: Settled<ClientCard>)
      modifies this
      ensures loading == old(loading)
      ensures created.Ok? ==> cards == old(cards) + [created.value] && error == old(error) && r == Resolved(created.value)
      ensures created.Failed? ==> cards == old(cards) && error == Some(AddCardFailed) && r == Rejected(created.error)
    {
      match created {
      case Ok(c) =>
        cards := cards + [c];
        r := Resolved(c);
      case Failed(e) =>
        error := Some(AddCardFailed);
        r := Rejected(e);
      }
    }

    /** `updateCard`: only the cards carrying `id` change. */
    method UpdateCard(id: int, updated: Reply<ClientCard>) returns (r: Settled<ClientCard>)
      modifies this
      ensures loading == old(loading)
      ensures updated.Ok? ==>
        cards == ReplaceById(old(cards), CardId, id, updated.value) && error == old(error) && r == Resolved(updated.value)
      ensures updated.Failed? ==> cards == old(cards) && error == Some(UpdateCardFailed) && r == Rejected(updated.error)
    {
      match updated {
      case Ok(c) =>
        cards := ReplaceById(cards, CardId, id, c);
        r := Resolved(c);
      case Failed(e) =>
        error := Some(UpdateCardFailed);
        r := Rejected(e);
      }
    }

    /** `deleteCard`: the cards carrying `id` are dropped once the server has deleted it. */
    method DeleteCard(id: int, deleted: Reply<()>) returns (r: Settled<()>)
      modifies this
      ensures loading == old(loading)
      ensures deleted.Ok? ==> cards == RemoveById(old(cards), CardId, id) && error == old(error) && r == Resolved(())
      ensures deleted.Failed? ==> cards == old(cards) && error == Some(DeleteCardFailed) && r == Rejected(deleted.error)
    {
      match deleted {
      case Ok(_) =>
        cards := RemoveById(cards, CardId, id);
        r := Resolved(());
      case Failed(e) =>
        error := Some(DeleteCardFailed);
        r := Rejected(e);
      }
    }
  }

  /** `Partial<SavingsInvestment>`: the fields an update overrides; an absent field keeps the stored value. */
  datatype InvestmentPatch = InvestmentPatch(
    id: Option<int>,
    name: Option<string>,
    investmentType: Option<string>,
    purchaseDate: Option<string>,
    initialAmount: Option<real>,
    currentValue: Option<real>,
    description: Option<Option<string>>,
    isRecurring: Option<bool>,
    recurringType: Option<Option<string>>,
    recurringAmount: Option<Option<real>>,
    lastRecurringDate: Option<Option<string>>,
    createdAt: Option<string>,
    updatedAt: Option<string>)

  const NoChanges := InvestmentPatch(None, None, None, None, None, None, None, None, None, None, None, None, None)

  /** `{ ...existing, ...patch }`: the patch's fields win, every other field is the stored one. */
  function Merge(existing: ClientInvestment, patch: InvestmentPatch): (r: ClientInvestment)
    ensures patch.id.Some? ==> r.id == patch.id.value
    ensures patch.id.None? ==> r.id == existing.id
    ensures patch.name.Some? ==> r.name == patch.name.value
    ensures patch.name.None? ==> r.name == existing.name
    ensures patch.investmentType.Some? ==> r.investmentType == patch.investmentType.value
    ensures patch.investmentType.None? ==> r.investmentType == existing.investmentType
    ensures patch.purchaseDate.Some? ==> r.purchaseDate == patch.purchaseDate.value
    ensures patch.purchaseDate.None? ==> r.purchaseDate == existing.purchaseDate
    ensures patch.initialAmount.Some? ==> r.initialAmount == patch.initialAmount.value
    ensures patch.initialAmount.None? ==> r.initialAmount == existing.initialAmount
    ensures patch.currentValue.Some? ==> r.currentValue == patch.currentValue.value
    ensures patch.currentValue.None? ==> r.currentValue == existing.currentValue
    ensures patch.description.Some? ==> r.description == patch.description.value
    ensures patch.description.None? ==> r.description == existing.description
    ensures patch.isRecurring.Some? ==> r.isRecurring == patch.isRecurring.value
    ensures patch.isRecurring.None? ==> r.isRecurring == existing.isRecurring
    ensures patch.recurringType.Some? ==> r.recurringType == patch.recurringType.value
    ensures patch.recurringType.None? ==> r.recurringType == existing.recurringType
    ensures patch.recurringAmount.Some? ==> r.recurringAmount == patch.recurringAmount.value
    ensures patch.recurringAmount.None? ==> r.recurringAmount == existing.recurringAmount
    ensures patch.lastRecurringDate.Some? ==> r.lastRecurringDate == patch.lastRecurringDate.value
    ensures patch.lastRecurringDate.None? ==> r.lastRecurringDate == existing.lastRecurringDate
    ensures patch.createdAt.Some? ==> r.createdAt == patch.createdAt.value
    ensures patch.createdAt.None? ==> r.createdAt == existing.createdAt
    ensures patch.updatedAt.Some? ==> r.updatedAt == patch.updatedAt.value
    ensures patch.updatedAt.None? ==> r.updatedAt == existing.updatedAt
    ensures patch == NoChanges ==> r == existing
  {
    ClientInvestment(
      patch.id.GetOr(existing.id),
      patch.name.GetOr(existing.name),
      patch.investmentType.GetOr(existing.investmentType),
      patch.purchaseDate.GetOr(existing.purchaseDate),
      patch.initialAmount.GetOr(existing.initialAmount),
      patch.currentValue.GetOr(existing.currentValue),
      patch.description.GetOr(existing.description),
      patch.isRecurring.GetOr(existing.isRecurring),
      patch.recurringType.GetOr(existing.recurringType),
      patch.recurringAmount.GetOr(existing.recurringAmount),
      patch.lastRecurringDate.GetOr(existing.lastRecurringDate),
      patch.createdAt.GetOr(existing.createdAt),
      patch.updatedAt.GetOr(existing.updatedAt))
  }

  /** `useSavings()`: the investments and the savings comparison, refreshed after every change. */
  class SavingsHook {
    var investments: seq<ClientInvestment>
    var comparison: Option<Comparison>
    var loading: bool
    var error: Option<string>

    /** The initial load requests both together: either both are stored, or neither is. */
    constructor(listed: Reply<seq<ClientInvestment>>, compared: Reply<Comparison>)
      ensures !loading
      ensures listed.Ok? && compared.Ok? ==>
        investments == listed.value && comparison == Some(compared.value) && error == None
      ensures listed.Failed? || compared.Failed? ==>
        investments == [] && comparison == None && error == Some(FetchSavingsFailed)
    {
      investments := [];
      comparison := None;
      error := None;
      loading := true;
      if listed.Ok? && compared.Ok? {
        investments := listed.value;
        comparison := Some(compared.value);
        error := None;
      } else {
        error := Some(FetchSavingsFailed);
      }
      loading := false;
    }

    /** The comparison refresh that follows a successful change; its failure becomes the operation's failure. */
    method Refresh<T>(value: T, compared: Reply<Comparison>, message: string) returns (r: Settled<T>)
      modifies this
      ensures investments == old(investments) && loading == old(loading)
      ensures compared.Ok? ==> comparison == Some(compared.value) && error == old(error) && r == Resolved(value)
      ensures compared.Failed? ==> comparison == old(comparison) && error == Some(message) && r == Rejected(compared.error)
    {
      match compared {
      case Ok(c) =>
        comparison := Some(c);
        r := Resolved(value);
      case Failed(e) =>
        error := Some(message);
        r := Rejected(e);
      }
    }

    /**
     * `addInvestment`: the created record is appended, then the comparison is refetched. A failed
     * refetch keeps the appended record but still reports the add as failed and rethrows.
     */
    method AddInvestment(created: Reply<ClientInvestment>, compared: Reply<Comparison>)
      returns (r: Settled<ClientInvestment>)
      modifies this
      ensures loading == old(loading)
      ensures created.Failed? ==>
        investments == old(investments) && comparison == old(comparison)
        && error == Some(AddInvestmentFailed) && r == Rejected(created.error)
      ensures created.Ok? ==> investments == old(investments) + [created.value]
      ensures created.Ok? && compared.Ok? ==>
        comparison == Some(compared.value) && error == old(error) && r == Resolved(created.value)
      ensures created.Ok? && compared.Failed? ==>
        comparison == old(comparison) && error == Some(AddInvestmentFailed) && r == Rejected(compared.error)
    {
      match created {
      case Failed(e) =>
        error := Some(AddInvestmentFailed);
        r := Rejected(e);
      case Ok(inv) =>
        investments := investments + [inv];
        r := Refresh(inv, compared, AddInvestmentFailed);
      }
    }

    /**
     * `updateInvestment`: without a local record carrying `id` it fails before any request, with
     * `'Investment not found'`. Otherwise it sends the local record overlaid by the patch (`sent`),
     * puts the server's record in place of every record carrying `id`, and refetches the comparison.
     */
    method UpdateInvestment(id: int, patch: InvestmentPatch, updated: Reply<ClientInvestment>, compared: Reply<Comparison>)
      returns (sent: Option<ClientInvestment>, r: Settled<ClientInvestment>)
      modifies this
      ensures loading == old(loading)
      ensures sent.None? <==> !HasId(old(investments), InvestmentId, id)
      ensures sent.None? ==>
        investments == old(investments) && comparison == old(comparison)
        && error == Some(UpdateInvestmentFailed) && r == Rejected(ErrorObject(InvestmentNotFound))
      ensures sent.Some? ==> sent == Some(Merge(FindById(old(investments), InvestmentId, id).value, patch))
      ensures sent.Some? && updated.Failed? ==>
        investments == old(investments) && comparison == old(comparison)
        && error == Some(UpdateInvestmentFailed) && r == Rejected(updated.error)
      ensures sent.Some? && updated.Ok? ==> investments == ReplaceById(old(investments), InvestmentId, id, updated.value)
      ensures sent.Some? && updated.Ok? && compared.Ok? ==>
        comparison == Some(compared.value) && error == old(error) && r == Resolved(updated.value)
      ensures sent.Some? && updated.Ok? && compared.Failed? ==>
        comparison == old(comparison) && error == Some(UpdateInvestmentFailed) && r == Rejected(compared.error)
    {
      var existing := FindById(investments, InvestmentId, id);
      if existing.None? {
        sent := None;
        error := Some(UpdateInvestmentFailed);
        r := Rejected(ErrorObject(InvestmentNotFound));
        return;
      }
      sent := Some(Merge(existing.value, patch));
      match updated {
      case Failed(e) =>
        error := Some(UpdateInvestmentFailed);
        r := Rejected(e);
      case Ok(inv) =>
        investments := ReplaceById(investments, InvestmentId, id, inv);
        r := Refresh(inv, compared, UpdateInvestmentFailed);
      }
    }

    /** `deleteInvestment`: the records carrying `id` are dropped after the server deletes it, then the comparison is refetched. */
    method DeleteInvestment(id: int, deleted: Reply<()>, compared: Reply<Comparison>) returns (r: Settled<()>)
      modifies this
      ensures loading == old(loading)
      ensures deleted.Failed? ==>
        investments == old(investments) && comparison == old(comparison)
        && error == Some(DeleteInvestmentFailed) && r == Rejected(deleted.error)
      ensures deleted.Ok? ==> investments == RemoveById(old(investments), InvestmentId, id)
      ensures deleted.Ok? && compared.Ok? ==> comparison == Some(compared.value) && error == old(error) && r == Resolved(())
      ensures deleted.Ok? && compared.Failed? ==>
        comparison == old(comparison) && error == Some(DeleteInvestmentFailed) && r == Rejected(compared.error)
    {
      match deleted {
      case Failed(e) =>
        error := Some(DeleteInvestmentFailed);
        r := Rejected(e);
      case Ok(_) =>
        investments := RemoveById(investments, InvestmentId, id);
        r := Refresh((), compared, DeleteInvestmentFailed);
      }
    }
  }

  /** `useSalaries()`: every operation raises `loading` and lowers it on exit; success clears `error`. */
  class SalariesHook {
    var salaries: seq<ClientSalary>
    var loading: bool
    var error: Option<string>

    /** Mounting runs `fetchSalaries` once. */
    constructor(reply: Reply<seq<ClientSalary>>)
      ensures !loading
      ensures reply.Ok? ==> salaries == reply.value && error == None
      ensures reply.Failed? ==> salaries == [] && error == Some(FetchSalariesFailed)
    {
      salaries := [];
      loading := false;
      error := None;
      new;
      FetchSalaries(reply);
    }

    /** `fetchSalaries`: the reply replaces the list; a failure records its message and is not rethrown. */
    method FetchSalaries(reply: Reply<seq<ClientSalary>>)
      modifies this
      ensures !loading
      ensures reply.Ok? ==> salaries == reply.value && error == None
      ensures reply.Failed? ==> salaries == old(salaries) && error == Some(FetchSalariesFailed)
    {
      loading := true;
      match reply {
      case Ok(ss) =>
        salaries := ss;
        error := None;
      case Failed(_) =>
        error := Some(FetchSalariesFailed);
      }
      loading := false;
    }

    /** `addSalary`: the created salary is appended. */
    method AddSalary(created: Reply<ClientSalary>) returns (r: Settled<ClientSalary>)
      modifies this
      ensures !loading
      ensures created.Ok? ==> salaries == old(salaries) + [created.value] && error == None && r == Resolved(created.value)
      ensures created.Failed? ==> salaries == old(salaries) && error == Some(CreateSalaryFailed) && r == Rejected(created.error)
    {
      loading := true;
      match created {
      case Ok(s) =>
        salaries := salaries + [s];
        error := None;
        r := Resolved(s);
      case Failed(e) =>
        error := Some(CreateSalaryFailed);
        r := Rejected(e);
      }
      loading := false;
    }

    /** `updateSalary`: the salaries carrying `id` become the server's record. */
    method UpdateSalary(id: int, updated: Reply<ClientSalary>) returns (r: Settled<ClientSalary>)
      modifies this
      ensures !loading
      ensures updated.Ok? ==>
        salaries == ReplaceById(old(salaries), SalaryId, id, updated.value) && error == None && r == Resolved(updated.value)
      ensures updated.Failed? ==> salaries == old(salaries) && error == Some(UpdateSalaryFailed) && r == Rejected(updated.error)
    {
      loading := true;
      match updated {
      case Ok(s) =>
        salaries := ReplaceById(salaries, SalaryId, id, s);
        error := None;
        r := Resolved(s);
      case Failed(e) =>
        error := Some(UpdateSalaryFailed);
        r := Rejected(e);
      }
      loading := false;
    }

    /** `deleteSalary`: the salaries carrying `id` are dropped after the server deletes it. */
    method DeleteSalary(id: int, deleted: Reply<()>) returns (r: Settled<()>)
      modifies this
      ensures !loading
      ensures deleted.Ok? ==> salaries == RemoveById(old(salaries), SalaryId, id) && error == None && r == Resolved(())
      ensures deleted.Failed? ==> salaries == old(salaries) && error == Some(DeleteSalaryFailed) && r == Rejected(deleted.error)
    {
      loading := true;
      match deleted {
      case Ok(_) =>
        salaries := RemoveById(salaries, SalaryId, id);
        error := None;
        r := Resolved(());
      case Failed(e) =>
        error := Some(DeleteSalaryFailed);
        r := Rejected(e);
      }
      loading := false;
    }
  }

  /**
   * `usePayments()`: every operation clears `error` and raises `loading` before its request and
   * lowers `loading` at the end. A failure's message is the thrown `Error`'s own message, or the
   * operation's fallback text for any other thrown value.
   */
  class PaymentsHook {
    var payments: seq<ClientPayment>
    var loading: bool
    var error: Option<string>

    constructor()
      ensures payments == [] && !loading && error == None
    {
      payments := [];
      loading := false;
      error := None;
    }

    /** `fetchPayments` and `fetchPaymentsByCard`: the reply replaces the list; failures are not rethrown. */
    method FetchPayments(reply: Reply<seq<ClientPayment>>)
      modifies this
      ensures !loading
      ensures reply.Ok? ==> payments == reply.value && error == None
      ensures reply.Failed? ==> payments == old(payments) && error == Some(ErrorText(reply.error, FetchPaymentsFailed))
    {
      loading := true;
      error := None;
      match reply {
      case Ok(ps) =>
        payments := ps;
      case Failed(e) =>
        error := Some(ErrorText(e, FetchPaymentsFailed));
      }
      loading := false;
    }

    /** `addPayment`: the created payment is appended to the list as it then stands. */
    method AddPayment(created: Reply<ClientPayment>) returns (r: Settled<ClientPayment>)
      modifies this
      ensures !loading
      ensures created.Ok? ==> payments == old(payments) + [created.value] && error == None && r == Resolved(created.value)
      ensures created.Failed? ==>
        payments == old(payments) && error == Some(ErrorText(created.error, AddPaymentFailed)) && r == Rejected(created.error)
    {
      loading := true;
      error := None;
      match created {
      case Ok(p) =>
        payments := payments + [p];
        r := Resolved(p);
      case Failed(e) =>
        error := Some(ErrorText(e, AddPaymentFailed));
        r := Rejected(e);
      }
      loading := false;
    }

    /** `deletePayment`: the payments carrying `id` are dropped after the server deletes it. */
    method DeletePayment(id: int, deleted: Reply<()>) returns (r: Settled<()>)
      modifies this
      ensures !loading
      ensures deleted.Ok? ==> payments == RemoveById(old(payments), PaymentId, id) && error == None && r == Resolved(())
      ensures deleted.Failed? ==>
        payments == old(payments) && error == Some(ErrorText(deleted.error, DeletePaymentFailed)) && r == Rejected(deleted.error)
    {
      loading := true;
      error := None;
      match deleted {
      case Ok(_) =>
        payments := RemoveById(payments, PaymentId, id);
        r := Resolved(());
      case Failed(e) =>
        error := Some(ErrorText(e, DeletePaymentFailed));
        r := Rejected(e);
      }
      loading := false;
    }

    /** `updatePayment`: only the payments carrying `id` become the server's record. */
    method UpdatePayment(id: int, updated: Reply<ClientPayment>) returns (r: Settled<ClientPayment>)
      modifies this
      ensures !loading
      ensures updated.Ok? ==>
        payments == ReplaceById(old(payments), PaymentId, id, updated.value) && error == None && r == Resolved(updated.value)
      ensures updated.Failed? ==>
        payments == old(payments) && error == Some(ErrorText(updated.error, UpdatePaymentFailed)) && r == Rejected(updated.error)
    {
      loading := true;
      error := None;
      match updated {
      case Ok(p) =>
        payments := ReplaceById(payments, PaymentId, id, p);
        r := Resolved(p);
      case Failed(e) =>
        error := Some(ErrorText(e, UpdatePaymentFailed));
        r := Rejected(e);
      }
      loading := false;
    }
  }

  /**
   * What a create followed by a delete of the created record's id leaves in any of the caches: when
   * the id was new, the list as it was before the create.
   */
  lemma CreateThenDeleteRestores<T(!new)>(xs: seq<T>, key: T -> int, created: T)
    requires !HasId(xs, key, key(created))
    ensures RemoveById(xs + [created], key, key(created)) == xs
  {
    RemoveByIdAppend(xs, [created], key, key(created));
    RemoveAbsentId(xs, key, key(created));
    assert [created][1..] == [];
  }

  /** A create keeps ids unique exactly when the server's record carries an id not yet in the list. */
  lemma CreateKeepsUniqueIds<T>(xs: seq<T>, key: T -> int, created: T)
    requires UniqueIds(xs, key)
    ensures UniqueIds(xs + [created], key) <==> !HasId(xs, key, key(created))
  {
    var ys := xs + [created];
    if HasId(xs, key, key(created)) {
      var i :| 0 <= i < |xs| && key(xs[i]) == key(created);
      assert key(ys[i]) == key(ys[|xs|]);
    }
  }

  /** Replacing by a record that carries the same id keeps ids unique and leaves exactly that record under the id. */
  lemma UpdateKeepsUniqueIds<T>(xs: seq<T>, key: T -> int, id: int, updated: T)
    requires UniqueIds(xs, key) && key(updated) == id && HasId(xs, key, id)
    ensures UniqueIds(ReplaceById(xs, key, id, updated), key)
    ensures FindById(ReplaceById(xs, key, id, updated), key, id) == Some(updated)
    ensures |ReplaceById(xs, key, id, updated)| == |xs|
  {
    ReplaceKeepsUniqueIds(xs, key, id, updated);
  }

  /** With unique ids a delete removes exactly one record when the id is present, and none otherwise. */
  lemma DeleteRemovesOne<T(!new)>(xs: seq<T>, key: T -> int, id: int)
    requires UniqueIds(xs, key)
    ensures HasId(xs, key, id) ==> |RemoveById(xs, key, id)| == |xs| - 1
    ensures !HasId(xs, key, id) ==> RemoveById(xs, key, id) == xs
    ensures UniqueIds(RemoveById(xs, key, id), key)
  {
    if HasId(xs, key, id) {
      CountIdUnique(xs, key, id);
    } else {
      RemoveAbsentId(xs, key, id);
    }
    RemoveKeepsUniqueIds(xs, key, id);
  }
}
