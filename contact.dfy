/** The contact form: a four-field record, a pending flag and a sent flag. */
module Contact {
  /** The names of the form's inputs. */
  datatype Field = Name | Email | Subject | Message

  /** The form's contents. */
  datatype FormData = FormData(name: string, email: string, subject: string, message: string)

  /** The form as it starts and as a completed submit leaves it. */
  const Blank: FormData := FormData("", "", "", "")

  /** The value of one input. */
  function Get(f: FormData, k: Field): string {
    match k
    case Name => f.name
    case Email => f.email
    case Subject => f.subject
    case Message => f.message
  }

  /** The record with the input named `k` replaced by `v`: that input reads `v`, every other input is as it was. */
  function With(f: FormData, k: Field, v: string): (g: FormData)
    ensures Get(g, k) == v
    ensures forall j :: j != k ==> Get(g, j) == Get(f, j)
  {
    match k
    case Name => f.(name := v)
    case Email => f.(email := v)
    case Subject => f.(subject := v)
    case Message => f.(message := v)
  }

  /** Two records that agree on every input are the same record. */
  lemma Extensional(f: FormData, g: FormData)
    requires forall k :: Get(f, k) == Get(g, k)
    ensures f == g
  {
    assert Get(f, Name) == Get(g, Name) && Get(f, Email) == Get(g, Email);
    assert Get(f, Subject) == Get(g, Subject) && Get(f, Message) == Get(g, Message);
  }

  /** Writing an input's own value back changes nothing. */
  lemma WithSame(f: FormData, k: Field)
    ensures With(f, k, Get(f, k)) == f
  {
    Extensional(With(f, k, Get(f, k)), f);
  }

  /** The later of two writes to the same input wins. */
  lemma WithOverwrites(f: FormData, k: Field, a: string, b: string)
    ensures With(With(f, k, a), k, b) == With(f, k, b)
  {
    Extensional(With(With(f, k, a), k, b), With(f, k, b));
  }

  /** Writes to different inputs can happen in either order. */
  lemma WithCommutes(f: FormData, j: Field, a: string, k: Field, b: string)
    requires j != k
    ensures With(With(f, j, a), k, b) == With(With(f, k, b), j, a)
  {
    Extensional(With(With(f, j, a), k, b), With(With(f, k, b), j, a));
  }

  /** The caption of the submit button. */
  function SubmitLabel(isSubmitting: bool): (l: string)
    ensures l == "[SENDING...]" || l == "[SEND_SECURE_MESSAGE]"
    ensures isSubmitting <==> l == "[SENDING...]"
  {
    if isSubmitting then "[SENDING...]" else "[SEND_SECURE_MESSAGE]"
  }

  /** The contact section's state. */
  class ContactForm {
    var formData: FormData
    var isSubmitting: bool
    var submitted: bool

    /** A submit is never pending once the message has been sent. */
    ghost predicate Valid()
      reads this
    {
      isSubmitting ==> !submitted
    }

    /** The form is on screen until a message has been sent. */
    function ShowsForm(): bool
      reads this
    {
      !submitted
    }

    /** The submit button is disabled while a submit is pending. */
    function ButtonDisabled(): bool
      reads this
    {
      isSubmitting
    }

    constructor()
      ensures formData == Blank && !isSubmitting && !submitted
      ensures Valid()
    {
      formData := Blank;
      isSubmitting := false;
      submitted := false;
    }

    /** Typing into the input named `k`. */
    method HandleInputChange(k: Field, v: string)
      requires Valid()
      modifies this
      ensures formData == With(old(formData), k, v)
      ensures isSubmitting == old(isSubmitting) && submitted == old(submitted)
      ensures Valid()
    {
      formData := With(formData, k, v);
    }

    /** Submitting the form marks the submit pending and disables the button. */
    method BeginSubmit()
      requires Valid() && ShowsForm()
      modifies this
      ensures isSubmitting && ButtonDisabled() && SubmitLabel(isSubmitting) == "[SENDING...]"
      ensures formData == old(formData) && submitted == old(submitted)
      ensures Valid()
    {
      isSubmitting := true;
    }

    /** The end of the simulated delay: the submit always succeeds and the form is cleared. */
    method FinishSubmit()
      requires Valid()
      modifies this
      ensures !isSubmitting && submitted && formData == Blank
      ensures forall k :: Get(formData, k) == ""
      ensures Valid()
    {
      isSubmitting := false;
      submitted := true;
      formData := Blank;
    }

    /** A whole submit, from the form to the confirmation. */
    method Submit()
      requires Valid() && ShowsForm()
      modifies this
      ensures !isSubmitting && submitted && formData == Blank
      ensures Valid()
    {
      BeginSubmit();
      FinishSubmit();
    }

    /** "Send new message" brings the form back and leaves its contents alone. */
    method SendNewMessage()
      requires Valid()
      modifies this
      ensures !submitted && ShowsForm()
      ensures formData == old(formData) && isSubmitting == old(isSubmitting)
      ensures Valid()
    {
      submitted := false;
    }
  }
}
