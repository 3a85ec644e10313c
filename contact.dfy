/**
 * The contact form (src/pages/Contact.jsx): a message is "sent" only when all
 * three fields are filled in, and sending clears them. Nothing leaves the
 * page; the three-second timer that hides the confirmation is the method
 * `ConfirmationElapsed`.
 */
module Contact {

  datatype FormData = FormData(name: string, email: string, message: string)

  const EmptyForm := FormData("", "", "")

  /** The submit guard: every field is non-empty. */
  predicate Complete(f: FormData) {
    f.name != "" && f.email != "" && f.message != ""
  }

  /** The form after a submit, and whether the confirmation shows. */
  function Submitted(f: FormData, submitted: bool): (r: (FormData, bool))
    ensures Complete(f) ==> r == (EmptyForm, true)
    ensures !Complete(f) ==> r == (f, submitted)
  {
    if Complete(f) then (EmptyForm, true) else (f, submitted)
  }

  /** A second submit right after a successful one changes nothing: the cleared form is incomplete. */
  lemma SubmitTwice(f: FormData, submitted: bool)
    ensures var (g, s) := Submitted(f, submitted);
      Submitted(g, s) == (g, s)
  {
  }

  class ContactPage {
    var formData: FormData
    var submitted: bool

    constructor ()
      ensures formData == EmptyForm && !submitted
    {
      formData := EmptyForm;
      submitted := false;
    }

    /** Typing into one of the fields. */
    method Edit(data: FormData)
      modifies this
      ensures formData == data && submitted == old(submitted)
    {
      formData := data;
    }

    /** `handleSubmit` */
    method HandleSubmit()
      modifies this
      ensures (formData, submitted) == Submitted(old(formData), old(submitted))
      ensures old(Complete(formData)) ==> submitted && formData == EmptyForm
      ensures !old(Complete(formData)) ==> submitted == old(submitted) && formData == old(formData)
    {
      if formData.name != "" && formData.email != "" && formData.message != "" {
        submitted := true;
        formData := FormData("", "", "");
      }
    }

    /** The timer after a submit hides the confirmation. */
    method ConfirmationElapsed()
      modifies this
      ensures !submitted && formData == old(formData)
    {
      submitted := false;
    }
  }
}
