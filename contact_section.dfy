/**
 * The contact form (storefront/src/components/contact-section.tsx): its `formData`, `status`
 * and `message` state, the change and submit handlers, and the completion callback that the
 * two-second timer runs.
 *
 * Browser events are explicit, and so is what the browser does before the handlers run. A
 * change event carries the input's sanitized value: line breaks removed from the `type="text"`
 * name and subject, line breaks and surrounding whitespace removed from the `type="email"`
 * address, the message textarea's text as typed. The form has no `novalidate`, so the browser
 * fires no submit event while the email field holds a non-empty value that is not a valid email
 * address. While the status is `Loading` every input and the submit button are disabled, so
 * change and submit events are not delivered. The timer is scheduled only by a submit that
 * enters `Loading`, and nothing but the timer leaves `Loading`, so a timer is pending exactly
 * while the status is `Loading`.
 */
module ContactSection {
  import opened SubmitStatus
  import HtmlInput

  datatype Field = Name | Email | Subject | Message

  datatype FormData = FormData(name: string, email: string, subject: string, message: string)

  datatype ContactState = ContactState(form: FormData, status: Status, message: string)

  datatype Event = Change(field: Field, value: string) | Submit | TimerFired

  const EmptyForm := FormData("", "", "", "")

  const Initial := ContactState(EmptyForm, Idle, "")

  const MissingFieldsMessage := "Please fill in all required fields."
  const InvalidEmailMessage := "Please enter a valid email address."
  const ThankYouMessage := "Thank you for your message! We'll get back to you within 24 hours."

  function FieldValue(f: FormData, field: Field): string
  {
    match field
    case Name => f.name
    case Email => f.email
    case Subject => f.subject
    case Message => f.message
  }

  /** `{ ...prev, [name]: value }`. */
  function WithField(f: FormData, field: Field, value: string): (r: FormData)
    ensures FieldValue(r, field) == value
    ensures forall other :: other != field ==> FieldValue(r, other) == FieldValue(f, other)
  {
    match field
    case Name => f.(name := value)
    case Email => f.(email := value)
    case Subject => f.(subject := value)
    case Message => f.(message := value)
  }

  /** Name, email and message are required; the subject is optional. */
  predicate RequiredFilled(f: FormData)
  {
    f.name != "" && f.email != "" && f.message != ""
  }

  /** The only email check: it contains an `@` somewhere. */
  predicate EmailAccepted(f: FormData)
  {
    '@' in f.email
  }

  function HandleInputChange(s: ContactState, field: Field, value: string): (r: ContactState)
    ensures FieldValue(r.form, field) == value
    ensures forall other :: other != field ==> FieldValue(r.form, other) == FieldValue(s.form, other)
    ensures r.status == s.status && r.message == s.message
  {
    s.(form := WithField(s.form, field, value))
  }

  function HandleSubmit(s: ContactState): (r: ContactState)
    ensures r.form == s.form
    ensures r.status == Error <==> !RequiredFilled(s.form) || !EmailAccepted(s.form)
    ensures !RequiredFilled(s.form) ==> r.message == MissingFieldsMessage
    ensures RequiredFilled(s.form) && !EmailAccepted(s.form) ==> r.message == InvalidEmailMessage
    ensures RequiredFilled(s.form) && EmailAccepted(s.form) ==> r.status == Loading && r.message == s.message
  {
    if s.form.name == "" || s.form.email == "" || s.form.message == "" then
      s.(status := Error, message := MissingFieldsMessage)
    else if '@' !in s.form.email then
      s.(status := Error, message := InvalidEmailMessage)
    else
      s.(status := Loading)
  }

  /** The timer callback: every field cleared, the status `Success` and the thank-you message. */
  function Complete(s: ContactState): (r: ContactState)
    ensures forall field :: FieldValue(r.form, field) == ""
    ensures r.status == Success && r.message == ThankYouMessage
  {
    ContactState(EmptyForm, Success, ThankYouMessage)
  }

  /** The value a change event of `field` carries when `raw` has been typed into it. */
  function InputValue(field: Field, raw: string): string
  {
    match field
    case Name => HtmlInput.TextValue(raw)
    case Email => HtmlInput.EmailValue(raw)
    case Subject => HtmlInput.TextValue(raw)
    case Message => raw
  }

  /** The browser lets the form be submitted: its only constraint is the email input's. */
  predicate SubmissionAllowed(f: FormData)
  {
    !HtmlInput.SuffersTypeMismatch(f.email)
  }

  /** One browser event, with sanitization, constraint validation, the disabled controls and the pending timer taken into account. */
  function Deliver(s: ContactState, e: Event): (r: ContactState)
    ensures s.status == Loading && !e.TimerFired? ==> r == s
    ensures e.Submit? && !SubmissionAllowed(s.form) ==> r == s
    ensures e.Submit? && s.status != Loading && SubmissionAllowed(s.form) ==> r == HandleSubmit(s)
    ensures e.TimerFired? ==> r == if s.status == Loading then Complete(s) else s
    ensures e.Change? && s.status != Loading ==> r == HandleInputChange(s, e.field, InputValue(e.field, e.value))
  {
    match e
    case Change(field, value) => if s.status == Loading then s else HandleInputChange(s, field, InputValue(field, value))
    case Submit => if s.status == Loading || !SubmissionAllowed(s.form) then s else HandleSubmit(s)
    case TimerFired => if s.status == Loading then Complete(s) else s
  }

  function Run(s: ContactState, events: seq<Event>): ContactState
  {
    if events == [] then s else Deliver(Run(s, events[..|events| - 1]), events[|events| - 1])
  }

  /**
   * What every reachable state satisfies. The stored email is a sanitized value, an error is
   * always the missing-fields one (the browser stops every address the handler would call
   * invalid), and a submission in flight has its required fields and a valid address.
   */
  predicate Consistent(s: ContactState)
  {
    && HtmlInput.EmailValue(s.form.email) == s.form.email
    && MessageFitsStatus(s)
    && (s.status == Loading ==> RequiredFilled(s.form) && HtmlInput.IsValidEmailAddress(s.form.email))
  }

  /** The message each status shows; loading keeps the message of the state it started from. */
  predicate MessageFitsStatus(s: ContactState)
  {
    && (s.status == Idle ==> s.message == "")
    && (s.status == Error ==> s.message == MissingFieldsMessage)
    && (s.status == Success ==> s.message == ThankYouMessage)
    && (s.status == Loading ==> s.message == "" || s.message == MissingFieldsMessage || s.message == ThankYouMessage)
  }

  /** The required-field check comes first: an empty required field hides a bad email. */
  lemma RequiredCheckBeforeEmailCheck(s: ContactState)
    requires !RequiredFilled(s.form) && !EmailAccepted(s.form)
    ensures HandleSubmit(s).message == MissingFieldsMessage
  {
  }

  /**
   * The handler's email check is that an `@` occurs, so it would accept a lone `"@"`; the
   * browser never lets that form be submitted.
   */
  lemma LoneAtSignAccepted(name: string, subject: string, message: string)
    requires name != "" && message != ""
    ensures HandleSubmit(ContactState(FormData(name, "@", subject, message), Idle, "")).status == Loading
    ensures var s := ContactState(FormData(name, "@", subject, message), Idle, ""); Deliver(s, Submit) == s
  {
    assert "@"[0] == '@';
    HtmlInput.TypeMismatchExamples();
  }

  /** Out of `Loading`, a submit starts loading exactly when the required fields are filled and the address is valid. */
  lemma SubmitStartsLoadingIff(s: ContactState)
    requires s.status != Loading
    ensures Deliver(s, Submit).status == Loading <==> RequiredFilled(s.form) && HtmlInput.IsValidEmailAddress(s.form.email)
  {
    if HtmlInput.IsValidEmailAddress(s.form.email) {
      HtmlInput.ValidAddressHasAt(s.form.email);
    }
  }

  /** While a submission is in flight only the timer changes anything. */
  lemma LoadingIgnoresInput(s: ContactState, e: Event)
    requires s.status == Loading && !e.TimerFired?
    ensures Deliver(s, e) == s
  {
  }

  /** A valid submit followed by the timer clears the form and thanks the sender. */
  lemma SubmitThenComplete(s: ContactState)
    requires s.status != Loading && RequiredFilled(s.form) && HtmlInput.IsValidEmailAddress(s.form.email)
    ensures Run(s, [Submit, TimerFired]) == ContactState(EmptyForm, Success, ThankYouMessage)
  {
    HtmlInput.ValidAddressHasAt(s.form.email);
    assert [Submit, TimerFired][..1] == [Submit];
    assert [Submit][..0] == [];
    assert Run(s, [Submit]) == HandleSubmit(s);
  }

  /** The empty value is already sanitized. */
  lemma EmptyEmailSanitized()
    ensures HtmlInput.EmailValue("") == ""
  {
    assert HtmlInput.StripNewlines("") == "";
  }

  lemma ChangeKeepsConsistent(s: ContactState, field: Field, value: string)
    requires Consistent(s)
    ensures Consistent(Deliver(s, Change(field, value)))
  {
    if s.status != Loading {
      var r := HandleInputChange(s, field, InputValue(field, value));
      if field == Email {
        HtmlInput.EmailValueIdempotent(value);
        assert r.form.email == HtmlInput.EmailValue(value);
      } else {
        assert r.form.email == s.form.email;
      }
      assert MessageFitsStatus(r);
    }
  }

  lemma SubmitKeepsConsistent(s: ContactState)
    requires Consistent(s)
    ensures Consistent(Deliver(s, Submit))
  {
    if s.status != Loading && SubmissionAllowed(s.form) {
      var r := HandleSubmit(s);
      if RequiredFilled(s.form) {
        HtmlInput.ValidAddressHasAt(s.form.email);
        assert r == s.(status := Loading);
      } else {
        assert r == s.(status := Error, message := MissingFieldsMessage);
      }
      assert Deliver(s, Submit) == r;
    }
  }

  lemma DeliverKeepsConsistent(s: ContactState, e: Event)
    requires Consistent(s)
    ensures Consistent(Deliver(s, e))
  {
    match e
    case Change(field, value) => ChangeKeepsConsistent(s, field, value);
    case Submit => SubmitKeepsConsistent(s);
    case TimerFired => EmptyEmailSanitized();
  }

  /**
   * Every state reachable from the initial one is consistent: in particular the timer only
   * ever completes a submission whose form passed both checks.
   */
  lemma {:induction false} RunKeepsConsistent(events: seq<Event>)
    ensures Consistent(Run(Initial, events))
  {
    if events != [] {
      RunKeepsConsistent(events[..|events| - 1]);
      DeliverKeepsConsistent(Run(Initial, events[..|events| - 1]), events[|events| - 1]);
    } else {
      EmptyEmailSanitized();
    }
  }

  /** A state whose message fits its status never shows the handler's invalid-email message. */
  lemma ConsistentHidesInvalidEmailMessage(s: ContactState)
    requires MessageFitsStatus(s)
    ensures s.message != InvalidEmailMessage
  {
    match s.status
    case Idle =>
    case Error => assert s.message[7] != InvalidEmailMessage[7];
    case Success => assert |s.message| != |InvalidEmailMessage|;
    case Loading =>
      if s.message == MissingFieldsMessage {
        assert s.message[7] != InvalidEmailMessage[7];
      } else if s.message == ThankYouMessage {
        assert |s.message| != |InvalidEmailMessage|;
      }
  }

  /** The handler's invalid-email message is never shown: the browser rejects those addresses first. */
  lemma {:induction false} InvalidEmailMessageNeverShown(events: seq<Event>)
    ensures Run(Initial, events).message != InvalidEmailMessage
  {
    RunKeepsConsistent(events);
    ConsistentHidesInvalidEmailMessage(Run(Initial, events));
  }

  /** The component's state. */
  class ContactForm {
    var formData: FormData
    var status: Status
    var message: string

    function State(): ContactState
      reads this
    {
      ContactState(formData, status, message)
    }

    constructor ()
      ensures State() == Initial
    {
      formData := EmptyForm;
      status := Idle;
      message := "";
    }

    /** A change event of the input named `field` after `value` was typed; a disabled input sends none. */
    method OnInputChange(field: Field, value: string)
      modifies this
      ensures State() == Deliver(old(State()), Change(field, value))
    {
      if status != Loading {
        formData := WithField(formData, field, InputValue(field, value));
      }
    }

    /** A submit event; the disabled button and an invalid address send none. */
    method OnSubmit()
      modifies this
      ensures State() == Deliver(old(State()), Submit)
    {
      if status == Loading || HtmlInput.SuffersTypeMismatch(formData.email) {
        return;
      }
      if formData.name == "" || formData.email == "" || formData.message == "" {
        status := Error;
        message := MissingFieldsMessage;
        return;
      }
      // The handler's `@` check cannot fail here: the browser has already rejected such an address.
      assert '@' in formData.email;
      status := Loading;
    }

    /** The two-second timer fires; it is pending exactly while loading. */
    method OnTimerFired()
      modifies this
      ensures State() == Deliver(old(State()), TimerFired)
    {
      if status == Loading {
        status := Success;
        message := ThankYouMessage;
        formData := EmptyForm;
      }
    }
  }
}
