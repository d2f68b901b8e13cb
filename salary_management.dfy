/**
 * `SalaryManagement`: one form serves both adding and editing. `editingId` says which; it is tested
 * for truthiness, so an id of 0 counts as "not editing" and submits a new salary instead.
 */
module SalaryManagement {
  import opened Wrappers
  import opened JsValues
  import opened ClientTypes
  import opened Hooks
  import Records

  /** The form fields; the amount is text the user typed or a salary's amount written out by `toString`. */
  datatype SalaryFormData = SalaryFormData(
    name: string,
    amount: FieldText,
    startDate: string,
    isActive: bool,
    description: string)

  /** The inputs of the salary form; `is_active` is its only checkbox. */
  datatype SalaryField = SalaryName | SalaryAmount | StartDate | IsActive | SalaryDescription

  function EmptySalaryForm(today: string): (d: SalaryFormData)
    ensures d.name == "" && d.amount == Typed("") && d.startDate == today && d.isActive && d.description == ""
  {
    SalaryFormData("", Typed(""), today, true, "")
  }

  /** The browser's `required` check: a name, an amount and a start date must be present. */
  predicate SalaryComplete(d: SalaryFormData) {
    d.name != "" && d.amount != Typed("") && d.startDate != ""
  }

  /** What a submit sends: an update without a start date, or a new salary with one. */
  datatype SalaryRequest =
    | UpdateRequest(id: int, name: string, amount: JsNumber, isActive: bool, description: Option<string>)
    | AddRequest(name: string, amount: JsNumber, startDate: string, isActive: bool, description: Option<string>)

  /** `if (editingId)`: a missing id and an id of 0 both take the add path. */
  function Request(editingId: Option<int>, d: SalaryFormData): (r: SalaryRequest)
    ensures r.UpdateRequest? <==> editingId.Some? && editingId.value != 0
    ensures r.UpdateRequest? ==> r.id == editingId.value
    ensures r.AddRequest? ==> r.startDate == d.startDate
    ensures r.name == d.name && r.amount == ParseFieldText(d.amount) && r.isActive == d.isActive
    ensures r.description.None? <==> d.description == ""
    ensures r.description.Some? ==> r.description.value == d.description
  {
    var description := if d.description == "" then None else Some(d.description);
    if editingId.Some? && editingId.value != 0 then
      UpdateRequest(editingId.value, d.name, ParseFieldText(d.amount), d.isActive, description)
    else
      AddRequest(d.name, ParseFieldText(d.amount), d.startDate, d.isActive, description)
  }

  /** `handleEdit`'s form: the amount written out, a missing or empty start date replaced by today, no description as `''`. */
  function EditForm(s: ClientSalary, today: string): (d: SalaryFormData)
    ensures d.name == s.name && d.amount == NumberShown(s.amount) && d.isActive == s.isActive
    ensures d.startDate == (if s.startDate.Some? && s.startDate.value != "" then s.startDate.value else today)
    ensures d.description == s.description.GetOr("")
  {
    SalaryFormData(
      s.name,
      NumberShown(s.amount),
      if s.startDate.Some? && s.startDate.value != "" then s.startDate.value else today,
      s.isActive,
      s.description.GetOr(""))
  }

  /**
   * Editing a salary and submitting it unchanged sends the salary's own name, amount, status and
   * description back as an update of that salary, unless its id is 0: then it is sent as a new salary.
   */
  lemma EditThenSubmit(s: ClientSalary, today: string)
    ensures today != "" ==> (SalaryComplete(EditForm(s, today)) <==> s.name != "")
    ensures var r := Request(Some(s.id), EditForm(s, today));
      r.name == s.name && r.amount == Finite(s.amount) && r.isActive == s.isActive
      && (r.description.Some? <==> s.description.Some? && s.description.value != "")
      && (r.description.Some? ==> r.description == s.description)
      && (r.UpdateRequest? <==> s.id != 0)
      && (r.UpdateRequest? ==> r.id == s.id)
  {
  }

  /** The salary page's form and list state, over the salaries hook. */
  class SalaryManagement {
    const salaries: SalariesHook
    var showForm: bool
    var editingId: Option<int>
    var formData: SalaryFormData

    constructor(today: string, reply: Reply<seq<ClientSalary>>)
      ensures fresh(salaries)
      ensures !showForm && editingId == None && formData == EmptySalaryForm(today)
      ensures reply.Ok? ==> salaries.salaries == reply.value
      ensures reply.Failed? ==> salaries.salaries == []
    {
      salaries := new SalariesHook(reply);
      showForm := false;
      editingId := None;
      formData := EmptySalaryForm(today);
    }

    /** `handleChange`: the checkbox stores its `checked` state, every other input its raw value. */
    method HandleChange(field: SalaryField, value: string, checked: bool)
      modifies this
      ensures showForm == old(showForm) && editingId == old(editingId)
      ensures field == SalaryName ==> formData == old(formData).(name := value)
      ensures field == SalaryAmount ==> formData == old(formData).(amount := Typed(value))
      ensures field == StartDate ==> formData == old(formData).(startDate := value)
      ensures field == IsActive ==> formData == old(formData).(isActive := checked)
      ensures field == SalaryDescription ==> formData == old(formData).(description := value)
    {
      match field {
      case SalaryName => formData := formData.(name := value);
      case SalaryAmount => formData := formData.(amount := Typed(value));
      case StartDate => formData := formData.(startDate := value);
      case IsActive => formData := formData.(isActive := checked);
      case SalaryDescription => formData := formData.(description := value);
      }
    }

    /**
     * `handleSubmit`: runs only once the required fields are filled in, and then sends the request;
     * when the hook resolves, the form is reset and hidden, and after an update `editingId` is
     * cleared. A rejection is only logged: form, id and visibility stay.
     */
    method HandleSubmit(today: string, reply: Reply<ClientSalary>) returns (sent: Option<SalaryRequest>)
      modifies this, salaries
      ensures sent.Some? <==> SalaryComplete(old(formData))
      ensures sent.None? ==> unchanged(this, salaries)
      ensures sent.Some? ==> sent.value == Request(old(editingId), old(formData)) && !salaries.loading
      ensures reply.Ok? && sent.Some? && sent.value.UpdateRequest? ==>
        salaries.salaries == Records.ReplaceById(old(salaries.salaries), SalaryId, sent.value.id, reply.value)
      ensures reply.Ok? && sent.Some? && sent.value.AddRequest? ==> salaries.salaries == old(salaries.salaries) + [reply.value]
      ensures reply.Ok? && sent.Some? ==> formData == EmptySalaryForm(today) && !showForm && salaries.error == None
      ensures reply.Ok? && sent.Some? && sent.value.UpdateRequest? ==> editingId == None
      ensures reply.Ok? && sent.Some? && sent.value.AddRequest? ==> editingId == old(editingId)
      ensures reply.Failed? ==>
        salaries.salaries == old(salaries.salaries) && formData == old(formData)
        && editingId == old(editingId) && showForm == old(showForm)
    {
      if !SalaryComplete(formData) {
        return None;
      }
      var request := Request(editingId, formData);
      sent := Some(request);
      var outcome: Settled<ClientSalary>;
      if request.UpdateRequest? {
        outcome := salaries.UpdateSalary(request.id, reply);
        if outcome.Resolved? {
          editingId := None;
        }
      } else {
        outcome := salaries.AddSalary(reply);
      }
      if outcome.Resolved? {
        formData := EmptySalaryForm(today);
        showForm := false;
      }
    }

    /** `handleEdit`: the salary's values fill the form, which opens in edit mode. */
    method HandleEdit(s: ClientSalary, today: string)
      modifies this
      ensures formData == EditForm(s, today) && editingId == Some(s.id) && showForm
    {
      formData := EditForm(s, today);
      editingId := Some(s.id);
      showForm := true;
    }

    /** `handleCancel`: the form is reset, leaves edit mode and closes. */
    method HandleCancel(today: string)
      modifies this
      ensures formData == EmptySalaryForm(today) && editingId == None && !showForm
    {
      formData := EmptySalaryForm(today);
      editingId := None;
      showForm := false;
    }

    /** The header button: it only opens or closes the form, keeping its contents and edit mode. */
    method ToggleForm()
      modifies this
      ensures showForm == !old(showForm) && editingId == old(editingId) && formData == old(formData)
    {
      showForm := !showForm;
    }

    /** `handleDelete`: the salary is deleted only after confirmation; a failure is only logged. */
    method HandleDelete(confirmed: bool, id: int, deleted: Reply<()>)
      modifies salaries
      ensures !confirmed ==> salaries.salaries == old(salaries.salaries) && salaries.error == old(salaries.error)
      ensures confirmed && deleted.Ok? ==> salaries.salaries == Records.RemoveById(old(salaries.salaries), SalaryId, id)
      ensures confirmed && deleted.Failed? ==> salaries.salaries == old(salaries.salaries)
    {
      var target := ConfirmedDelete(confirmed, id);
      if target.Some? {
        var _ := salaries.DeleteSalary(target.value, deleted);
      }
    }
  }

  /**
   * Editing a salary and saving it with the server's reply replaces that salary in the list and
   * leaves edit mode; for id 0 the same steps add a copy instead. A salary without a name cannot be
   * saved this way: the form stays open in edit mode and the list is unchanged.
   */
  method EditAndSave(page: SalaryManagement, s: ClientSalary, today: string, saved: ClientSalary)
    requires today != ""
    modifies page, page.salaries
    ensures s.name == "" ==>
      page.salaries.salaries == old(page.salaries.salaries) && page.editingId == Some(s.id) && page.showForm
    ensures s.name != "" && s.id != 0 ==>
      page.salaries.salaries == Records.ReplaceById(old(page.salaries.salaries), SalaryId, s.id, saved)
      && page.editingId == None && !page.showForm
    ensures s.name != "" && s.id == 0 ==>
      page.salaries.salaries == old(page.salaries.salaries) + [saved] && page.editingId == Some(0) && !page.showForm
  {
    page.HandleEdit(s, today);
    EditThenSubmit(s, today);
    var sent := page.HandleSubmit(today, Ok(saved));
  }
}
