/**
 * The entry forms for investments, transactions and card payments. Each form keeps the raw field
 * values in its `formData`, updates one field per change event, builds the payload it hands to its
 * `onAdd` callback on submit, and returns to its defaults only when that callback resolves.
 *
 * The date defaults read the clock (`new Date().toISOString().split('T')[0]`); that reading is the
 * `today` parameter. Whether `onAdd` resolves is decided outside the form: the `accepted` parameter.
 */
module Forms {
  import opened Wrappers
  import opened JsValues
  import opened ClientTypes
  import CardViews
  import SavingsViews

  /** `value || undefined` on a text field: an empty text is not sent. */
  function NonEmpty(s: string): (r: Option<string>)
    ensures r.None? <==> s == ""
    ensures r.Some? ==> r.value == s
  {
    if s == "" then None else Some(s)
  }

  // ---------------------------------------------------------------- AddSavingsForm

  datatype SavingsFormData = SavingsFormData(
    name: string,
    investmentType: string,
    purchaseDate: string,
    initialAmount: string,
    currentValue: string,
    description: string,
    isRecurring: bool,
    recurringType: string,
    recurringAmount: string)

  /** The inputs of the investment form; `is_recurring` is its only checkbox. */
  datatype SavingsField =
    | InvestmentName | InvestmentType | PurchaseDate | InitialAmount | CurrentValue
    | InvestmentDescription | IsRecurring | RecurringType | RecurringAmount

  function EmptySavingsForm(today: string): (d: SavingsFormData)
    ensures d.investmentType == "mutual_fund" && d.recurringType == "monthly" && d.purchaseDate == today
    ensures !d.isRecurring
    ensures d.name == "" && d.initialAmount == "" && d.currentValue == "" && d.description == "" && d.recurringAmount == ""
  {
    SavingsFormData("", "mutual_fund", today, "", "", "", false, "monthly", "")
  }

  /** What `onAdd` receives: amounts are `parseFloat` results and may be NaN. */
  datatype InvestmentPayload = InvestmentPayload(
    name: string,
    investmentType: string,
    purchaseDate: string,
    initialAmount: JsNumber,
    currentValue: JsNumber,
    description: Option<string>,
    isRecurring: bool,
    recurringType: Option<string>,
    recurringAmount: Option<JsNumber>)

  /**
   * The submitted investment: an empty current value or recurring amount stands for the initial
   * amount, the recurring fields are sent only for a recurring investment, and an empty
   * description is not sent.
   */
  function InvestmentPayloadOf(d: SavingsFormData): (p: InvestmentPayload)
    ensures p.name == d.name && p.investmentType == d.investmentType && p.purchaseDate == d.purchaseDate
    ensures p.initialAmount == ParseFloat(d.initialAmount)
    ensures d.currentValue == "" ==> p.currentValue == p.initialAmount
    ensures d.currentValue != "" ==> p.currentValue == ParseFloat(d.currentValue)
    ensures p.description == NonEmpty(d.description)
    ensures p.isRecurring == d.isRecurring
    ensures p.recurringType.Some? <==> d.isRecurring
    ensures p.recurringAmount.Some? <==> d.isRecurring
    ensures d.isRecurring ==> p.recurringType.value == d.recurringType
    ensures d.isRecurring && d.recurringAmount == "" ==> p.recurringAmount.value == p.initialAmount
    ensures d.isRecurring && d.recurringAmount != "" ==> p.recurringAmount.value == ParseFloat(d.recurringAmount)
  {
    var initial := ParseFloat(d.initialAmount);
    var current := if d.currentValue != "" then ParseFloat(d.currentValue) else initial;
    var recurring := if d.recurringAmount != "" then ParseFloat(d.recurringAmount) else initial;
    InvestmentPayload(
      d.name, d.investmentType, d.purchaseDate, initial, current, NonEmpty(d.description), d.isRecurring,
      if d.isRecurring then Some(d.recurringType) else None,
      if d.isRecurring then Some(recurring) else None)
  }

  /**
   * The browser's `required` check: the form is submitted only while the name, the purchase date,
   * the initial amount and the current value are all filled in.
   */
  predicate SavingsComplete(d: SavingsFormData) {
    d.name != "" && d.purchaseDate != "" && d.initialAmount != "" && d.currentValue != ""
  }

  /**
   * A submitted investment carries the current value typed into the form: the fallback to the
   * initial amount never applies. One recorded with the same text in both amount fields shows
   * neither a gain nor a loss: a profit of 0, the `'+'` prefix, and 0% for a non-zero amount.
   */
  lemma SameValueShowsNoProfit(d: SavingsFormData, i: ClientInvestment)
    requires SavingsComplete(d) && d.currentValue == d.initialAmount
    requires ParseFloat(d.initialAmount).Finite?
    requires i.initialAmount == InvestmentPayloadOf(d).initialAmount.value
    requires i.currentValue == InvestmentPayloadOf(d).currentValue.value
    ensures InvestmentPayloadOf(d).currentValue == ParseFloat(d.currentValue)
    ensures SavingsViews.Row(i).profitLoss == 0.0 && SavingsViews.Row(i).prefix == "+"
    ensures i.initialAmount != 0.0 ==> SavingsViews.Row(i).percent == Some(0.0)
  {
    SavingsViews.EvenRow(i);
  }

  /** `AddSavingsForm`'s state. */
  class AddSavingsForm {
    var formData: SavingsFormData

    constructor(today: string)
      ensures formData == EmptySavingsForm(today)
    {
      formData := EmptySavingsForm(today);
    }

    /** `handleChange`: the checkbox stores its `checked` state, every other input its raw value. */
    method HandleChange(field: SavingsField, value: string, checked: bool)
      modifies this
      ensures field == InvestmentName ==> formData == old(formData).(name := value)
      ensures field == InvestmentType ==> formData == old(formData).(investmentType := value)
      ensures field == PurchaseDate ==> formData == old(formData).(purchaseDate := value)
      ensures field == InitialAmount ==> formData == old(formData).(initialAmount := value)
      ensures field == CurrentValue ==> formData == old(formData).(currentValue := value)
      ensures field == InvestmentDescription ==> formData == old(formData).(description := value)
      ensures field == IsRecurring ==> formData == old(formData).(isRecurring := checked)
      ensures field == RecurringType ==> formData == old(formData).(recurringType := value)
      ensures field == RecurringAmount ==> formData == old(formData).(recurringAmount := value)
    {
      match field {
      case InvestmentName => formData := formData.(name := value);
      case InvestmentType => formData := formData.(investmentType := value);
      case PurchaseDate => formData := formData.(purchaseDate := value);
      case InitialAmount => formData := formData.(initialAmount := value);
      case CurrentValue => formData := formData.(currentValue := value);
      case InvestmentDescription => formData := formData.(description := value);
      case IsRecurring => formData := formData.(isRecurring := checked);
      case RecurringType => formData := formData.(recurringType := value);
      case RecurringAmount => formData := formData.(recurringAmount := value);
      }
    }

    /**
     * `handleSubmit`: runs only once the required fields are filled in, and then hands the payload
     * to `onAdd`; the form is cleared only if that resolves.
     */
    method HandleSubmit(today: string, accepted: bool) returns (sent: Option<InvestmentPayload>)
      modifies this
      ensures sent.Some? <==> SavingsComplete(old(formData))
      ensures sent.Some? ==> sent.value == InvestmentPayloadOf(old(formData))
      ensures sent.Some? ==> sent.value.currentValue == ParseFloat(old(formData).currentValue)
      ensures sent.Some? && accepted ==> formData == EmptySavingsForm(today)
      ensures sent.None? || !accepted ==> formData == old(formData)
    {
      if !SavingsComplete(formData) {
        return None;
      }
      sent := Some(InvestmentPayloadOf(formData));
      if accepted {
        formData := EmptySavingsForm(today);
      }
    }
  }

  // ---------------------------------------------------------------- AddTransactionForm

  /** The form's amount holds `''` (None) or a number other than 0 and NaN. */
  datatype TransactionFormData = TransactionFormData(
    date: string,
    amount: Option<real>,
    kind: string,
    category: string,
    description: string,
    paymentMethod: string,
    creditCardId: Option<int>)

  /** The inputs of the transaction form; none of them is named `credit_card_id`. */
  datatype TransactionField = TransactionDate | Amount | Kind | Category | TransactionDescription | PaymentMethod

  function EmptyTransactionForm(today: string): (d: TransactionFormData)
    ensures d.date == today && d.amount == None && d.kind == "expense" && d.paymentMethod == "cash"
    ensures d.category == "" && d.description == "" && d.creditCardId == None
  {
    TransactionFormData(today, None, "expense", "", "", "cash", None)
  }

  /** `parseFloat(value) || ''`: a typed 0 or an unreadable amount leaves the field empty. */
  function AmountInput(value: string): (r: Option<real>)
    ensures r.Some? <==> Truthy(ParseFloat(value))
    ensures r.Some? ==> ParseFloat(value) == Finite(r.value) && r.value != 0.0
  {
    var n := ParseFloat(value);
    if Truthy(n) then Some(n.value) else None
  }

  /** Typing "0" empties the amount just as clearing it does; "12" is kept as 12. */
  lemma ZeroAmountClears()
    ensures AmountInput("0") == None && AmountInput("") == None
    ensures AmountInput("12") == Some(12.0)
  {
    assert AllDigits("0") && AllDigits("12");
    assert DigitsValue("12") == DigitsValue("1") * 10 + DigitValue('2');
  }

  /** The browser's `required` check: a date, an amount and a category must be present. */
  predicate TransactionComplete(d: TransactionFormData) {
    d.date != "" && d.amount.Some? && d.category != ""
  }

  /** Typing "0" as the amount empties the field, so the form cannot be submitted until another amount is typed. */
  lemma ZeroAmountBlocksSubmit(d: TransactionFormData)
    ensures !TransactionComplete(d.(amount := AmountInput("0")))
  {
    ZeroAmountClears();
  }

  /** The submitted transaction; the amount is sent as it stands in the form, `''` included. */
  datatype TransactionPayload = TransactionPayload(
    date: string,
    amount: Option<real>,
    kind: string,
    category: string,
    description: string,
    paymentMethod: string,
    creditCardId: Option<int>)

  /** `{ ...formData, credit_card_id: payment_method === 'card' ? credit_card_id : undefined }`. */
  function TransactionPayloadOf(d: TransactionFormData): (p: TransactionPayload)
    ensures p.date == d.date && p.amount == d.amount && p.kind == d.kind && p.category == d.category
    ensures p.description == d.description && p.paymentMethod == d.paymentMethod
    ensures p.creditCardId.Some? <==> d.paymentMethod == "card" && d.creditCardId.Some?
    ensures p.creditCardId.Some? ==> p.creditCardId == d.creditCardId
  {
    TransactionPayload(d.date, d.amount, d.kind, d.category, d.description, d.paymentMethod,
      if d.paymentMethod == "card" then d.creditCardId else None)
  }

  /** The category choices for the selected type. */
  function CategoryOptions(kind: string): (r: seq<string>)
    requires kind == "expense" || kind == "income"
    ensures "Other" in r
    ensures "Salary" in r <==> kind == "income"
    ensures "Food" in r <==> kind == "expense"
    ensures forall i, j :: 0 <= i < j < |r| ==> r[i] != r[j]
  {
    if kind == "expense" then ["Food", "Transport", "Entertainment", "Shopping", "Utilities", "Healthcare", "Other"]
    else ["Salary", "Freelance", "Bonus", "Investment", "Other"]
  }

  /**
   * A card payment recorded from this form's payload carries no card, so the transaction table
   * shows its card badge as `'-'` whatever cards exist.
   */
  lemma FormCardPaymentShowsNoCard(d: TransactionFormData, t: ClientTransaction, cards: seq<ClientCard>)
    requires d.creditCardId == None && d.paymentMethod == "card"
    requires t.paymentMethod == TransactionPayloadOf(d).paymentMethod
    requires t.creditCardId == TransactionPayloadOf(d).creditCardId
    ensures CardViews.TableRow(t, CardViews.CardMap(cards)).card == CardViews.Badge("-")
  {
  }

  /** `AddTransactionForm`'s state; the type is always one of the two the select offers. */
  class AddTransactionForm {
    var formData: TransactionFormData

    /** No input sets the card id, so it stays undefined. */
    ghost predicate Valid()
      reads this
    {
      formData.creditCardId == None && (formData.kind == "expense" || formData.kind == "income")
    }

    constructor(today: string)
      ensures Valid() && formData == EmptyTransactionForm(today)
    {
      formData := EmptyTransactionForm(today);
    }

    /** The category list the select shows. */
    function Categories(): (r: seq<string>)
      requires Valid()
      reads this
      ensures r == CategoryOptions(formData.kind)
    {
      CategoryOptions(formData.kind)
    }

    /** `handleChange`: the amount is coerced with `parseFloat(value) || ''`, every other input stores its raw value. */
    method HandleChange(field: TransactionField, value: string)
      requires Valid()
      requires field == Kind ==> value == "expense" || value == "income"
      modifies this
      ensures Valid()
      ensures field == TransactionDate ==> formData == old(formData).(date := value)
      ensures field == Amount ==> formData == old(formData).(amount := AmountInput(value))
      ensures field == Kind ==> formData == old(formData).(kind := value)
      ensures field == Category ==> formData == old(formData).(category := value)
      ensures field == TransactionDescription ==> formData == old(formData).(description := value)
      ensures field == PaymentMethod ==> formData == old(formData).(paymentMethod := value)
    {
      match field {
      case TransactionDate => formData := formData.(date := value);
      case Amount => formData := formData.(amount := AmountInput(value));
      case Kind => formData := formData.(kind := value);
      case Category => formData := formData.(category := value);
      case TransactionDescription => formData := formData.(description := value);
      case PaymentMethod => formData := formData.(paymentMethod := value);
      }
    }

    /**
     * `handleSubmit`: runs only once the required fields are filled in; every payload carries an
     * amount and leaves the card id undefined, card payments included.
     */
    method HandleSubmit(today: string, accepted: bool) returns (sent: Option<TransactionPayload>)
      requires Valid()
      modifies this
      ensures Valid()
      ensures sent.Some? <==> TransactionComplete(old(formData))
      ensures sent.Some? ==> sent.value == TransactionPayloadOf(old(formData))
      ensures sent.Some? ==> sent.value.amount.Some? && sent.value.creditCardId == None
      ensures sent.Some? && accepted ==> formData == EmptyTransactionForm(today)
      ensures sent.None? || !accepted ==> formData == old(formData)
    {
      if !TransactionComplete(formData) {
        return None;
      }
      sent := Some(TransactionPayloadOf(formData));
      if accepted {
        formData := EmptyTransactionForm(today);
      }
    }
  }

  // ---------------------------------------------------------------- AddPaymentForm

  /** The payment amount field: still the initial text `''`, or a number once typed into. */
  datatype PaymentAmount = AmountText(text: string) | AmountNumber(number: JsNumber)

  datatype PaymentFormData = PaymentFormData(
    creditCardId: string,
    paymentDate: string,
    amount: PaymentAmount,
    paymentMethod: string,
    description: string,
    transactionId: Option<int>)

  /** The inputs of the payment form; none of them is named `transaction_id`. */
  datatype PaymentField = CardSelection | PaymentDate | PaymentAmountField | Method | PaymentDescription

  /** The defaults; the card selection is the first card's id, or `''` without cards. */
  function EmptyPaymentForm(today: string, cards: seq<ClientCard>): (d: PaymentFormData)
    ensures cards != [] ==> d.creditCardId == IntToString(cards[0].id)
    ensures cards == [] ==> d.creditCardId == ""
    ensures d.paymentDate == today && d.amount == AmountText("") && d.paymentMethod == "bank"
    ensures d.description == "" && d.transactionId == None
  {
    PaymentFormData(if cards != [] then IntToString(cards[0].id) else "", today, AmountText(""), "bank", "", None)
  }

  /** `value === '' ? '' : Number.parseFloat(value)`. */
  function PaymentAmountInput(value: string): (r: PaymentAmount)
    ensures value == "" <==> r == AmountText("")
    ensures value != "" ==> r == AmountNumber(ParseFloat(value))
  {
    if value == "" then AmountText("") else AmountNumber(ParseFloat(value))
  }

  datatype PaymentPayload = PaymentPayload(
    creditCardId: JsNumber,
    paymentDate: string,
    amount: JsNumber,
    paymentMethod: string,
    description: Option<string>,
    transactionId: Option<int>)

  /** The submitted payment: the selection through `parseInt`, a text amount through `parseFloat`. */
  function PaymentPayloadOf(d: PaymentFormData): (p: PaymentPayload)
    ensures p.creditCardId == ParseInt(d.creditCardId)
    ensures d.creditCardId == "" ==> p.creditCardId == NaN
    ensures d.amount.AmountText? ==> p.amount == ParseFloat(d.amount.text)
    ensures d.amount.AmountNumber? ==> p.amount == d.amount.number
    ensures p.paymentDate == d.paymentDate && p.paymentMethod == d.paymentMethod
    ensures p.description == NonEmpty(d.description) && p.transactionId == d.transactionId
  {
    PaymentPayload(
      ParseInt(d.creditCardId),
      d.paymentDate,
      match d.amount case AmountText(s) => ParseFloat(s) case AmountNumber(n) => n,
      d.paymentMethod,
      NonEmpty(d.description),
      d.transactionId)
  }

  /** A selection holding a card's rendered id sends exactly that card's id. */
  lemma SelectedCardIsSent(d: PaymentFormData, c: ClientCard)
    requires d.creditCardId == IntToString(c.id)
    ensures PaymentPayloadOf(d).creditCardId == Finite(c.id as real)
  {
    ParseIntOfIntToString(c.id);
  }

  /** The browser's `required` check: a card, a date and an amount must be present. */
  predicate PaymentComplete(d: PaymentFormData) {
    d.creditCardId != "" && d.paymentDate != "" && d.amount != AmountText("")
  }

  /** `AddPaymentForm`'s state; no input sets the transaction id. */
  class AddPaymentForm {
    var formData: PaymentFormData

    ghost predicate Valid()
      reads this
    {
      formData.transactionId == None
    }

    /** The initial state, before the default-card effect has run. */
    constructor(today: string)
      ensures Valid()
      ensures formData == PaymentFormData("", today, AmountText(""), "bank", "", None)
    {
      formData := PaymentFormData("", today, AmountText(""), "bank", "", None);
    }

    /** The default-card effect: with cards and an empty selection, the first card is selected. */
    method SyncDefaultCard(cards: seq<ClientCard>)
      requires Valid()
      modifies this
      ensures Valid()
      ensures cards != [] && old(formData.creditCardId) == "" ==>
        formData == old(formData).(creditCardId := IntToString(cards[0].id))
      ensures cards == [] || old(formData.creditCardId) != "" ==> formData == old(formData)
      ensures cards != [] ==> formData.creditCardId != ""
    {
      if |cards| > 0 && formData.creditCardId == "" {
        formData := formData.(creditCardId := IntToString(cards[0].id));
      }
    }

    /** `handleChange`: an empty amount stays `''`, a typed one is parsed; other inputs store their raw value. */
    method HandleChange(field: PaymentField, value: string)
      requires Valid()
      modifies this
      ensures Valid()
      ensures field == CardSelection ==> formData == old(formData).(creditCardId := value)
      ensures field == PaymentDate ==> formData == old(formData).(paymentDate := value)
      ensures field == PaymentAmountField ==> formData == old(formData).(amount := PaymentAmountInput(value))
      ensures field == Method ==> formData == old(formData).(paymentMethod := value)
      ensures field == PaymentDescription ==> formData == old(formData).(description := value)
    {
      match field {
      case CardSelection => formData := formData.(creditCardId := value);
      case PaymentDate => formData := formData.(paymentDate := value);
      case PaymentAmountField => formData := formData.(amount := PaymentAmountInput(value));
      case Method => formData := formData.(paymentMethod := value);
      case PaymentDescription => formData := formData.(description := value);
      }
    }

    /**
     * `handleSubmit`: runs only once the required fields are filled in; the payment never links a
     * transaction, and on success the defaults return.
     */
    method HandleSubmit(today: string, cards: seq<ClientCard>, accepted: bool) returns (sent: Option<PaymentPayload>)
      requires Valid()
      modifies this
      ensures Valid()
      ensures sent.Some? <==> PaymentComplete(old(formData))
      ensures sent.Some? ==> sent.value == PaymentPayloadOf(old(formData))
      ensures sent.Some? ==> sent.value.transactionId == None
      ensures sent.Some? && accepted ==> formData == EmptyPaymentForm(today, cards)
      ensures sent.None? || !accepted ==> formData == old(formData)
    {
      if !PaymentComplete(formData) {
        return None;
      }
      sent := Some(PaymentPayloadOf(formData));
      if accepted {
        formData := EmptyPaymentForm(today, cards);
      }
    }
  }

  /**
   * After the default-card effect on a fresh form, submitting at once sends nothing, since the amount
   * is still empty; once an amount is typed, the submit sends the first card's id with that amount.
   */
  method FirstCardIsDefault(today: string, cards: seq<ClientCard>, typed: string)
    returns (untouched: Option<PaymentPayload>, sent: Option<PaymentPayload>)
    requires cards != []
    ensures untouched == None
    ensures sent.Some? <==> today != "" && typed != ""
    ensures sent.Some? ==>
      sent.value.creditCardId == Finite(cards[0].id as real) && sent.value.amount == ParseFloat(typed)
      && sent.value.paymentMethod == "bank" && sent.value.transactionId == None
  {
    var form := new AddPaymentForm(today);
    form.SyncDefaultCard(cards);
    untouched := form.HandleSubmit(today, cards, false);
    form.HandleChange(PaymentAmountField, typed);
    SelectedCardIsSent(form.formData, cards[0]);
    sent := form.HandleSubmit(today, cards, true);
  }
}
