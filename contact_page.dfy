/** The contact form: field edits, validation, and the mock submission. */
module ContactPage {
  import opened Wrappers
  import opened Text

  datatype ContactForm = ContactForm(name: string, email: string, subject: string, message: string)

  const EmptyForm := ContactForm("", "", "", "")

  const MissingFieldMessage := "Please fill in all fields."
  const InvalidEmailMessage := "Please enter a valid email address."

  datatype FormField = Name | Email | Subject | Message

  /** `handleChange`: the named field takes the new value, the others stay. */
  function WithField(form: ContactForm, field: FormField, value: string): (r: ContactForm)
    ensures field == Name ==> r == form.(name := value)
    ensures field == Email ==> r == form.(email := value)
    ensures field == Subject ==> r == form.(subject := value)
    ensures field == Message ==> r == form.(message := value)
  {
    match field
    case Name => form.(name := value)
    case Email => form.(email := value)
    case Subject => form.(subject := value)
    case Message => form.(message := value)
  }

  /** The value a field currently holds. */
  function FieldValue(form: ContactForm, field: FormField): string {
    match field
    case Name => form.name
    case Email => form.email
    case Subject => form.subject
    case Message => form.message
  }

  /** An edit is read back from its field, leaves the other three as they
      were, and writing back a field's own value changes nothing. */
  lemma WithFieldLaws(form: ContactForm, field: FormField, value: string, other: FormField)
    ensures FieldValue(WithField(form, field, value), field) == value
    ensures other != field ==> FieldValue(WithField(form, field, value), other) == FieldValue(form, other)
    ensures WithField(form, field, FieldValue(form, field)) == form
  {
  }

  /** The checks of `handleSubmit`, in order. */
  function Validate(form: ContactForm): (r: Option<string>)
    ensures r == None <==>
      form.name != "" && form.email != "" && form.subject != "" && form.message != "" && Contains(form.email, "@")
    ensures r == Some(MissingFieldMessage) <==>
      form.name == "" || form.email == "" || form.subject == "" || form.message == ""
    ensures r == Some(InvalidEmailMessage) <==>
      form.name != "" && form.email != "" && form.subject != "" && form.message != "" && !Contains(form.email, "@")
  {
    if form.name == "" || form.email == "" || form.subject == "" || form.message == "" then Some(MissingFieldMessage)
    else if !Contains(form.email, "@") then Some(InvalidEmailMessage)
    else None
  }

  /** The empty form never passes, so a second submit straight after a
      successful one is refused. */
  lemma EmptyFormRejected()
    ensures Validate(EmptyForm) == Some(MissingFieldMessage)
  {
  }

  class ContactPageState {
    var form: ContactForm
    var submitted: bool
    var error: Option<string>

    constructor ()
      ensures form == EmptyForm && !submitted && error == None
    {
      form := EmptyForm;
      submitted := false;
      error := None;
    }

    /** The form is rendered only while no submission is being acknowledged. */
    function FormVisible(): (r: bool)
      reads this
      ensures r <==> !submitted
    {
      !submitted
    }

    method HandleChange(field: FormField, value: string)
      modifies this
      ensures form == WithField(old(form), field, value)
      ensures submitted == old(submitted) && error == old(error)
    {
      form := WithField(form, field, value);
    }

    /** A failing form keeps its contents and shows the message; a passing
        one is acknowledged, and the fields are cleared. */
    method HandleSubmit()
      modifies this
      ensures Validate(old(form)).Some? ==>
        error == Validate(old(form)) && form == old(form) && submitted == old(submitted)
      ensures Validate(old(form)).None? ==> error == None && submitted && form == EmptyForm
      ensures Validate(old(form)).None? ==> !FormVisible()
    {
      var check := Validate(form);
      if check.Some? {
        error := check;
        return;
      }
      error := None;
      submitted := true;
      form := EmptyForm;
    }

    /** The acknowledgement timer (or closing its alert) shows the form again. */
    method ResetSubmitted()
      modifies this
      ensures !submitted && form == old(form) && error == old(error)
      ensures FormVisible()
    {
      submitted := false;
    }

    /** Closing the error alert. */
    method DismissError()
      modifies this
      ensures error == None && form == old(form) && submitted == old(submitted)
    {
      error := None;
    }
  }
}
