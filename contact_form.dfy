/**
 * The contact form of app/components/Contact.tsx: the `formData`, `status`
 * and `errorMessage` state, the `handleChange` and `handleSubmit`
 * transitions, and what the form shows for each status. The request to the
 * contact endpoint is replaced by its outcome: a decoded JSON reply, or an
 * exception.
 */
module ContactForm {
  import opened Wrappers
  import opened RepoData
  import Text
  import ContactApi

  /** The four inputs, named by their `name` attribute. */
  datatype FieldName = Name | Email | Subject | Message

  /** Lines 7-12. */
  datatype FormData = FormData(name: string, email: string, subject: string, message: string)

  /** Line 14. */
  datatype Status = Idle | Loading | Success | Error

  /** The decoded reply: the truth of `data.success` and the value of `data.error`. */
  datatype Reply = Reply(success: bool, error: Option<string>)

  const EmptyForm := FormData("", "", "", "")
  const DefaultError := "Something went wrong. Please try again."
  const NetworkError := "Failed to send message. Please try again later."
  const SendingLabel := "Sending..."
  const SendLabel := "Send Message"

  function Get(d: FormData, f: FieldName): string {
    match f
    case Name => d.name
    case Email => d.email
    case Subject => d.subject
    case Message => d.message
  }

  /** Line 28: `{ ...prev, [name]: value }`. */
  function Set(d: FormData, f: FieldName, value: string): (r: FormData)
    ensures Get(r, f) == value
    ensures forall g :: g != f ==> Get(r, g) == Get(d, g)
  {
    match f
    case Name => d.(name := value)
    case Email => d.(email := value)
    case Subject => d.(subject := value)
    case Message => d.(message := value)
  }

  /** Line 58: `data.error || 'Something went wrong. Please try again.'`. */
  function ReplyError(data: Reply): (r: string)
    ensures Truthy(data.error) ==> r == data.error.value
    ensures !Truthy(data.error) ==> r == DefaultError
  {
    OrElse(data.error, DefaultError)
  }

  class Contact {
    var formData: FormData
    var status: Status
    var errorMessage: string

    /** Lines 17-24: an empty form, idle, no error. */
    constructor()
      ensures formData == EmptyForm && status == Idle && errorMessage == ""
    {
      formData, status, errorMessage := EmptyForm, Idle, "";
    }

    /** Lines 26-29: the named field takes the new value; nothing else changes. */
    method HandleChange(f: FieldName, value: string)
      modifies this
      ensures formData == Set(old(formData), f, value)
      ensures status == old(status) && errorMessage == old(errorMessage)
    {
      formData := Set(formData, f, value);
    }

    /** Lines 33-34: sending starts and any earlier error is cleared. */
    method BeginSubmit()
      modifies this
      ensures status == Loading && errorMessage == ""
      ensures formData == old(formData)
    {
      status := Loading;
      errorMessage := "";
    }

    /**
     * Lines 47-58: a successful reply empties the form; any other reply
     * keeps it and shows the reply's error or the default text.
     */
    method ReceiveReply(data: Reply)
      modifies this
      ensures data.success ==> status == Success && formData == EmptyForm && errorMessage == old(errorMessage)
      ensures !data.success ==> status == Error && formData == old(formData) && errorMessage == ReplyError(data)
    {
      if data.success {
        status := Success;
        formData := EmptyForm;
      } else {
        status := Error;
        errorMessage := ReplyError(data);
      }
    }

    /** Lines 59-62: the request or the decoding threw. */
    method ReceiveException()
      modifies this
      ensures status == Error && errorMessage == NetworkError && formData == old(formData)
    {
      status := Error;
      errorMessage := NetworkError;
    }

    /** Lines 31-63: one whole submission, `None` standing for an exception. */
    method HandleSubmit(result: Option<Reply>)
      modifies this
      ensures result.Some? && result.value.success ==>
        status == Success && formData == EmptyForm && errorMessage == ""
      ensures result.Some? && !result.value.success ==>
        status == Error && formData == old(formData) && errorMessage == ReplyError(result.value)
      ensures result.None? ==> status == Error && formData == old(formData) && errorMessage == NetworkError
    {
      BeginSubmit();
      if result.Some? {
        ReceiveReply(result.value);
      } else {
        ReceiveException();
      }
    }

    /** Line 362: the button is disabled while sending. */
    predicate ButtonDisabled()
      reads this
    {
      status == Loading
    }

    /** Line 366: the button's label. */
    function ButtonLabel(): (r: string)
      reads this
      ensures r == SendingLabel <==> status == Loading
      ensures r == SendLabel <==> status != Loading
    {
      if status == Loading then SendingLabel else SendLabel
    }

    /** Line 373: the success banner. */
    predicate SuccessBannerShown()
      reads this
    {
      status == Success
    }

    /** Lines 384-393: the error banner, showing `errorMessage`. */
    function ErrorBanner(): (r: Option<string>)
      reads this
      ensures r.Some? <==> status == Error
      ensures r.Some? ==> r.value == errorMessage
    {
      if status == Error then Some(errorMessage) else None
    }
  }

  /** A change touches one field: reading it back gives the new value, every other field is as before. */
  lemma SetGet(d: FormData, f: FieldName, value: string, g: FieldName)
    ensures Get(Set(d, f, value), g) == if g == f then value else Get(d, g)
  {
  }

  /** Changing a field to what it already holds changes nothing. */
  lemma SetSame(d: FormData, f: FieldName)
    ensures Set(d, f, Get(d, f)) == d
  {
  }

  /* ---------- the form against the contact endpoint ---------- */

  /** `JSON.stringify(formData)` as the endpoint decodes it: four strings. */
  function BodyOf(d: FormData): ContactApi.Body {
    ContactApi.Fields(ContactApi.Str(d.name), ContactApi.Str(d.email), ContactApi.Str(d.subject), ContactApi.Str(d.message))
  }

  /** The endpoint's JSON response as the form reads it. */
  function ReplyOf(r: ContactApi.Response): Reply {
    Reply(r.success, if r.success then None else Some(r.text))
  }

  /**
   * Submitting the form to the endpoint: the form succeeds exactly when the
   * endpoint accepts the four fields and the mail is sent; otherwise it
   * shows one of the endpoint's three error texts, never the default one.
   */
  lemma FormAgainstEndpoint(d: FormData, env: ContactApi.Env, sent: bool)
    ensures var data := ReplyOf(ContactApi.Post(BodyOf(d), env, sent).response);
      (data.success <==> ContactApi.Deliverable(BodyOf(d), env) && sent)
      && (!data.success ==> ReplyError(data) in {ContactApi.RequiredError, ContactApi.InvalidEmailError, ContactApi.FailedError})
  {
    ContactApi.PostStatus(BodyOf(d), env, sent);
    ContactApi.PostDelivers(BodyOf(d), env, sent);
  }

  /** A form with a blank field, the untouched form among them, is refused with the required-fields error. */
  lemma BlankFieldRefused(d: FormData, env: ContactApi.Env, sent: bool)
    requires Text.Trim(d.name) == [] || Text.Trim(d.email) == [] || Text.Trim(d.subject) == [] || Text.Trim(d.message) == []
    ensures var data := ReplyOf(ContactApi.Post(BodyOf(d), env, sent).response);
      !data.success && ReplyError(data) == ContactApi.RequiredError
  {
    ContactApi.MissingFieldGives400(ContactApi.Str(d.name), ContactApi.Str(d.email), ContactApi.Str(d.subject),
      ContactApi.Str(d.message), env, sent);
    assert ContactApi.Post(BodyOf(d), env, sent).response == ContactApi.Response(400, false, ContactApi.RequiredError);
    assert ContactApi.RequiredError != [];
  }
}
