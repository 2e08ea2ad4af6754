/** The contact form (client/src/pages/Contact.js): name, email and message
    are required, the subject is not; a sent message resets the form and
    raises the success flag. */
module ContactPage {
  import opened Text

  datatype ContactForm = ContactForm(name: string, email: string, subject: string, message: string)

  datatype FormField = Name | Email | Subject | Message

  const EmptyForm := ContactForm("", "", "", "")
  const RequiredFieldsMessage := "Please fill in all required fields"
  const SendFailedMessage := "Failed to send message. Please try again."

  function Get(form: ContactForm, f: FormField): string {
    match f
    case Name => form.name
    case Email => form.email
    case Subject => form.subject
    case Message => form.message
  }

  /** handleChange: `{ ...prev, [name]: value }`. */
  function WithField(form: ContactForm, f: FormField, value: string): (r: ContactForm)
    ensures Get(r, f) == value
    ensures forall g :: g != f ==> Get(r, g) == Get(form, g)
  {
    match f
    case Name => form.(name := value)
    case Email => form.(email := value)
    case Subject => form.(subject := value)
    case Message => form.(message := value)
  }

  /** The guard of handleSubmit: name, email or message is blank. */
  predicate MissingRequired(form: ContactForm) {
    IsBlank(form.name) || IsBlank(form.email) || IsBlank(form.message)
  }

  /** The subject plays no part in the check. */
  lemma SubjectIsOptional(form: ContactForm, subject: string)
    ensures MissingRequired(WithField(form, Subject, subject)) == MissingRequired(form)
  {
  }

  class ContactState {
    var formData: ContactForm
    var loading: bool
    var success: bool
    var error: string

    constructor ()
      ensures formData == EmptyForm && !loading && !success && error == ""
    {
      formData, loading, success, error := EmptyForm, false, false, "";
    }

    method HandleChange(f: FormField, value: string)
      modifies this`formData
      ensures formData == WithField(old(formData), f, value)
    {
      formData := WithField(formData, f, value);
    }

    /** handleSubmit up to the simulated send: a blank required field sets
        the error and changes nothing else; otherwise loading is set and
        the error cleared. */
    method Submit() returns (sending: bool)
      modifies this`loading, this`error
      ensures sending == !MissingRequired(formData)
      ensures !sending ==> error == RequiredFieldsMessage && loading == old(loading)
      ensures sending ==> loading && error == ""
    {
      var form := formData;
      if MissingRequired(form) {
        error := RequiredFieldsMessage;
        sending := false;
      } else {
        loading := true;
        error := "";
        sending := true;
      }
    }

    /** handleSubmit after the send: success raises the flag and empties
        all four fields; a failure shows an error; loading ends either way. */
    method Settle(sent: bool)
      modifies this
      ensures !loading
      ensures sent ==> success && formData == EmptyForm && error == old(error)
      ensures !sent ==> success == old(success) && formData == old(formData) && error == SendFailedMessage
    {
      if sent {
        success := true;
        formData := EmptyForm;
      } else {
        error := SendFailedMessage;
      }
      loading := false;
    }
  }
}
