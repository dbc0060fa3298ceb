/** The maintenance request form (src/components/maintenance/MaintenanceForm.tsx):
    its fields, their defaults, the prefill from an existing request, the
    per-field validation and the clearing of a field's error on change. */
module MaintenanceForm {
  import opened Basics
  import opened Text
  import opened Types

  /** The form's `formData`: what `onSave` receives. The cost is a whole number
      of rupiah. */
  datatype RequestForm = RequestForm(
    title: string,
    description: string,
    category: RequestCategory,
    priority: Priority,
    estimatedCost: int,
    scheduledDate: string,
    assignedTo: string,
    adminNotes: string)

  /** The initial `formData`. */
  const EmptyForm := RequestForm("", "", Repair, Medium, 0, "", "", "")

  /** The prefill effect's value: the request's own title, description, category
      and priority, and each optional field or its default (`|| 0`, `|| ''`). */
  function PrefilledFrom(request: MaintenanceRequest): (form: RequestForm)
    ensures form.title == request.title && form.description == request.description
    ensures form.category == request.category && form.priority == request.priority
    ensures form.estimatedCost == if request.estimatedCost.Some? then request.estimatedCost.value else 0
    ensures form.scheduledDate == if request.scheduledDate.Some? then request.scheduledDate.value else ""
    ensures form.assignedTo == if request.assignedTo.Some? then request.assignedTo.value else ""
    ensures form.adminNotes == if request.adminNotes.Some? then request.adminNotes.value else ""
  {
    RequestForm(
      request.title,
      request.description,
      request.category,
      request.priority,
      request.estimatedCost.GetOr(0),
      request.scheduledDate.GetOr(""),
      request.assignedTo.GetOr(""),
      request.adminNotes.GetOr(""))
  }

  /** The `name` attributes of the form's inputs, which key its error record. */
  datatype Field = TitleField | DescriptionField | CategoryField | PriorityField
                 | CostField | ScheduledDateField | AssignedToField | AdminNotesField

  /** One `onChange` event: the field it names and the value it carries. The
      cost arrives as `parseFloat(value)`, `None` standing for NaN. */
  datatype FormEdit =
    | TitleEdit(text: string)
    | DescriptionEdit(text: string)
    | CategoryEdit(category: RequestCategory)
    | PriorityEdit(priority: Priority)
    | CostEdit(parsed: Option<int>)
    | ScheduledDateEdit(text: string)
    | AssignedToEdit(text: string)
    | AdminNotesEdit(text: string)
  {
    /** The input's `name` attribute. */
    function Key(): Field {
      match this
      case TitleEdit(_) => TitleField
      case DescriptionEdit(_) => DescriptionField
      case CategoryEdit(_) => CategoryField
      case PriorityEdit(_) => PriorityField
      case CostEdit(_) => CostField
      case ScheduledDateEdit(_) => ScheduledDateField
      case AssignedToEdit(_) => AssignedToField
      case AdminNotesEdit(_) => AdminNotesField
    }
  }

  /** `{ ...prev, [name]: type === 'number' ? parseFloat(value) || 0 : value }` */
  function Applied(form: RequestForm, edit: FormEdit): RequestForm {
    match edit
    case TitleEdit(t) => form.(title := t)
    case DescriptionEdit(t) => form.(description := t)
    case CategoryEdit(c) => form.(category := c)
    case PriorityEdit(p) => form.(priority := p)
    case CostEdit(parsed) => form.(estimatedCost := parsed.GetOr(0))
    case ScheduledDateEdit(t) => form.(scheduledDate := t)
    case AssignedToEdit(t) => form.(assignedTo := t)
    case AdminNotesEdit(t) => form.(adminNotes := t)
  }

  /** An edit sets the field it names to the edited value (a cost that does
      not parse as a number becomes 0) and changes no other field. */
  lemma EditTouchesOneField(form: RequestForm, edit: FormEdit)
    ensures edit.TitleEdit? ==> Applied(form, edit).title == edit.text
    ensures edit.DescriptionEdit? ==> Applied(form, edit).description == edit.text
    ensures edit.CategoryEdit? ==> Applied(form, edit).category == edit.category
    ensures edit.PriorityEdit? ==> Applied(form, edit).priority == edit.priority
    ensures edit.CostEdit? ==> Applied(form, edit).estimatedCost == edit.parsed.GetOr(0)
    ensures edit.ScheduledDateEdit? ==> Applied(form, edit).scheduledDate == edit.text
    ensures edit.AssignedToEdit? ==> Applied(form, edit).assignedTo == edit.text
    ensures edit.AdminNotesEdit? ==> Applied(form, edit).adminNotes == edit.text
    ensures edit.Key() != TitleField ==> Applied(form, edit).title == form.title
    ensures edit.Key() != DescriptionField ==> Applied(form, edit).description == form.description
    ensures edit.Key() != CategoryField ==> Applied(form, edit).category == form.category
    ensures edit.Key() != PriorityField ==> Applied(form, edit).priority == form.priority
    ensures edit.Key() != CostField ==> Applied(form, edit).estimatedCost == form.estimatedCost
    ensures edit.Key() != ScheduledDateField ==> Applied(form, edit).scheduledDate == form.scheduledDate
    ensures edit.Key() != AssignedToField ==> Applied(form, edit).assignedTo == form.assignedTo
    ensures edit.Key() != AdminNotesField ==> Applied(form, edit).adminNotes == form.adminNotes
  {
  }

  /** The messages the error record holds; `Cleared` is the empty string a
      change leaves behind. */
  datatype Message = Cleared | TitleRequired | DescriptionRequired | CostNegative
  {
    /** The text shown under the field. */
    function Display(): string {
      match this
      case Cleared => ""
      case TitleRequired => "Judul harus diisi"
      case DescriptionRequired => "Deskripsi harus diisi"
      case CostNegative => "Estimasi biaya tidak boleh negatif"
    }
  }

  /** The form passes validation: a non-blank title and description, and a cost
      that is not negative. */
  predicate Acceptable(form: RequestForm) {
    !Blank(form.title) && !Blank(form.description) && form.estimatedCost >= 0
  }

  /** The error record `validateForm` builds: one message per failing field,
      and no entry for a field that passes. */
  function RequestErrors(form: RequestForm): (errors: map<Field, Message>)
    ensures TitleField in errors <==> Blank(form.title)
    ensures DescriptionField in errors <==> Blank(form.description)
    ensures CostField in errors <==> form.estimatedCost < 0
    ensures errors.Keys <= {TitleField, DescriptionField, CostField}
    ensures TitleField in errors ==> errors[TitleField] == TitleRequired
    ensures DescriptionField in errors ==> errors[DescriptionField] == DescriptionRequired
    ensures CostField in errors ==> errors[CostField] == CostNegative
  {
    var e0: map<Field, Message> := map[];
    var e1 := if Blank(form.title) then e0[TitleField := TitleRequired] else e0;
    var e2 := if Blank(form.description) then e1[DescriptionField := DescriptionRequired] else e1;
    if form.estimatedCost < 0 then e2[CostField := CostNegative] else e2
  }

  /** `Object.keys(newErrors).length === 0` exactly when the form is acceptable. */
  lemma NoErrorsIffAcceptable(form: RequestForm)
    ensures RequestErrors(form) == map[] <==> Acceptable(form)
  {
    if !Acceptable(form) {
      assert Blank(form.title) ==> TitleField in RequestErrors(form);
    }
  }

  /** A title or description is refused exactly when it is nothing but white space. */
  lemma RefusedIffAllSpace(form: RequestForm)
    ensures TitleField in RequestErrors(form) <==> AllSpace(form.title)
    ensures DescriptionField in RequestErrors(form) <==> AllSpace(form.description)
  {
    BlankIffAllSpace(form.title);
    BlankIffAllSpace(form.description);
  }

  /** A fresh form has only a blank title and description to complain about;
      a cost of 0 is accepted. */
  lemma EmptyFormErrors()
    ensures RequestErrors(EmptyForm).Keys == {TitleField, DescriptionField}
  {
  }

  /** The form's state: the field values and the error record on screen. */
  class RequestFormState {
    var formData: RequestForm
    var errors: map<Field, Message>

    constructor ()
      ensures formData == EmptyForm && errors == map[]
    {
      formData := EmptyForm;
      errors := map[];
    }

    /** The prefill effect, run with the `request` prop; a null prop leaves the form as it is. */
    method Prefill(request: Option<MaintenanceRequest>)
      modifies this
      ensures formData == if request.Some? then PrefilledFrom(request.value) else old(formData)
      ensures errors == old(errors)
    {
      if request.Some? {
        formData := PrefilledFrom(request.value);
      }
    }

    /** `handleChange`: store the new value, and blank that field's message if it had one. */
    method HandleChange(edit: FormEdit)
      modifies this
      ensures formData == Applied(old(formData), edit)
      ensures errors == ClearedError(old(errors), edit.Key(), Cleared)
    {
      formData := Applied(formData, edit);
      if edit.Key() in errors && errors[edit.Key()] != Cleared {
        errors := errors[edit.Key() := Cleared];
      }
    }

    /** `validateForm`: build the error record, show it, and report whether it
        is empty. */
    method ValidateForm() returns (valid: bool)
      modifies this
      ensures errors == RequestErrors(formData) && formData == old(formData)
      ensures valid <==> Acceptable(formData)
    {
      var data := formData;
      var newErrors := RequestErrors(data);
      NoErrorsIffAcceptable(data);
      errors := newErrors;
      valid := newErrors == map[];
    }

    /** `handleSubmit`: the data handed to `onSave`, which happens only when
        validation passes. */
    method Submit() returns (saved: Option<RequestForm>)
      modifies this
      ensures errors == RequestErrors(formData) && formData == old(formData)
      ensures saved == if Acceptable(formData) then Some(formData) else None
    {
      var valid := ValidateForm();
      if !valid {
        return None;
      }
      return Some(formData);
    }
  }
}
