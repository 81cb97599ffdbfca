/**
 * The newsletter sign-up form (storefront/src/components/newsletter-section.tsx): its `email`,
 * `status` and `message` state, the submit handler and the completion callback of the
 * two-second timer.
 *
 * As in the contact form, the browser sanitizes the `type="email"` input's value before the
 * change handler reads it and fires no submit event while that value is non-empty and not a
 * valid email address; the input and the button are disabled while loading, so no change or
 * submit event is delivered then, and the timer is pending exactly while loading.
 */
module NewsletterSection {
  import opened SubmitStatus
  import ContactSection
  import HtmlInput

  datatype NewsletterState = NewsletterState(email: string, status: Status, message: string)

  datatype Event = Change(value: string) | Submit | TimerFired

  const Initial := NewsletterState("", Idle, "")

  const MissingEmailMessage := "Please enter your email address"
  const InvalidEmailMessage := "Please enter a valid email address"
  const ThankYouMessage := "Thank you for subscribing! Check your email for confirmation."

  function HandleSubmit(s: NewsletterState): (r: NewsletterState)
    ensures r.email == s.email
    ensures r.status == Error <==> '@' !in s.email
    ensures s.email == "" ==> r.message == MissingEmailMessage
    ensures s.email != "" && '@' !in s.email ==> r.message == InvalidEmailMessage
    ensures '@' in s.email ==> r.status == Loading && r.message == s.message
  {
    if s.email == "" then
      s.(status := Error, message := MissingEmailMessage)
    else if '@' !in s.email then
      s.(status := Error, message := InvalidEmailMessage)
    else
      s.(status := Loading)
  }

  /** The timer callback: the field cleared, the status `Success` and the thank-you message. */
  function Complete(s: NewsletterState): (r: NewsletterState)
    ensures r.email == "" && r.status == Success && r.message == ThankYouMessage
  {
    NewsletterState("", Success, ThankYouMessage)
  }

  /** One browser event, with sanitization, constraint validation, the disabled controls and the pending timer taken into account. */
  function Deliver(s: NewsletterState, e: Event): (r: NewsletterState)
    ensures s.status == Loading && !e.TimerFired? ==> r == s
    ensures e.Submit? && HtmlInput.SuffersTypeMismatch(s.email) ==> r == s
    ensures e.Submit? && s.status != Loading && !HtmlInput.SuffersTypeMismatch(s.email) ==> r == HandleSubmit(s)
    ensures e.Change? && s.status != Loading ==> r == s.(email := HtmlInput.EmailValue(e.value))
    ensures e.TimerFired? ==> r == if s.status == Loading then Complete(s) else s
  {
    match e
    case Change(value) => if s.status == Loading then s else s.(email := HtmlInput.EmailValue(value))
    case Submit => if s.status == Loading || HtmlInput.SuffersTypeMismatch(s.email) then s else HandleSubmit(s)
    case TimerFired => if s.status == Loading then Complete(s) else s
  }

  function Run(s: NewsletterState, events: seq<Event>): NewsletterState
  {
    if events == [] then s else Deliver(Run(s, events[..|events| - 1]), events[|events| - 1])
  }

  /**
   * What every reachable state satisfies: the stored email is a sanitized value, an error is
   * always the missing-email one, and a submission in flight has a valid address.
   */
  predicate Consistent(s: NewsletterState)
  {
    && HtmlInput.EmailValue(s.email) == s.email
    && MessageFitsStatus(s)
    && (s.status == Loading ==> HtmlInput.IsValidEmailAddress(s.email))
  }

  /** The message each status shows; loading keeps the message of the state it started from. */
  predicate MessageFitsStatus(s: NewsletterState)
  {
    && (s.status == Idle ==> s.message == "")
    && (s.status == Error ==> s.message == MissingEmailMessage)
    && (s.status == Success ==> s.message == ThankYouMessage)
    && (s.status == Loading ==> s.message == "" || s.message == MissingEmailMessage || s.message == ThankYouMessage)
  }

  /** The newsletter's invalid-email message is the contact form's without the final period. */
  lemma MessagesDifferByPeriod()
    ensures InvalidEmailMessage + "." == ContactSection.InvalidEmailMessage
    ensures InvalidEmailMessage != ContactSection.InvalidEmailMessage
  {
  }

  /** A change while not loading replaces the email by the sanitized value and changes nothing else. */
  lemma ChangeSetsEmail(s: NewsletterState, value: string)
    requires s.status != Loading
    ensures Deliver(s, Change(value)) == NewsletterState(HtmlInput.EmailValue(value), s.status, s.message)
  {
  }

  /** While a submission is in flight only the timer changes anything. */
  lemma LoadingIgnoresInput(s: NewsletterState, e: Event)
    requires s.status == Loading && !e.TimerFired?
    ensures Deliver(s, e) == s
  {
  }

  /** Out of `Loading`, a submit starts loading exactly when the address is valid. */
  lemma SubmitStartsLoadingIff(s: NewsletterState)
    requires s.status != Loading
    ensures Deliver(s, Submit).status == Loading <==> HtmlInput.IsValidEmailAddress(s.email)
  {
    if HtmlInput.IsValidEmailAddress(s.email) {
      HtmlInput.ValidAddressHasAt(s.email);
    }
  }

  /** Delivering one more event after a run. */
  lemma RunSnoc(s: NewsletterState, events: seq<Event>, e: Event)
    ensures Run(s, events + [e]) == Deliver(Run(s, events), e)
  {
    assert (events + [e])[..|events|] == events;
  }

  /** Out of `Loading`, a submit of a valid address starts loading and changes nothing else. */
  lemma SubmitOfValidAddressLoads(s: NewsletterState)
    requires s.status != Loading && HtmlInput.IsValidEmailAddress(s.email)
    ensures Deliver(s, Submit) == s.(status := Loading)
  {
    HtmlInput.ValidAddressHasAt(s.email);
  }

  /** A change, a submit and the timer, delivered one after the other. */
  lemma RunChangeSubmitTimer(s: NewsletterState, email: string)
    ensures Run(s, [Change(email), Submit, TimerFired]) == Deliver(Deliver(Deliver(s, Change(email)), Submit), TimerFired)
  {
    RunSnoc(s, [], Change(email));
    RunSnoc(s, [Change(email)], Submit);
    RunSnoc(s, [Change(email), Submit], TimerFired);
    assert [] + [Change(email)] == [Change(email)];
    assert [Change(email)] + [Submit] == [Change(email), Submit];
    assert [Change(email), Submit] + [TimerFired] == [Change(email), Submit, TimerFired];
  }

  /** Typing a valid address, submitting it and letting the timer fire ends in success with the field cleared. */
  lemma SubscribeFlow(s: NewsletterState, email: string)
    requires s.status != Loading && HtmlInput.IsValidEmailAddress(HtmlInput.EmailValue(email))
    ensures Run(s, [Change(email), Submit, TimerFired]) == NewsletterState("", Success, ThankYouMessage)
  {
    var typed := s.(email := HtmlInput.EmailValue(email));
    ChangeSetsEmail(s, email);
    SubmitOfValidAddressLoads(typed);
    RunChangeSubmitTimer(s, email);
  }

  /** The empty value is already sanitized. */
  lemma EmptyEmailSanitized()
    ensures HtmlInput.EmailValue("") == ""
  {
    assert HtmlInput.StripNewlines("") == "";
  }

  lemma DeliverKeepsConsistent(s: NewsletterState, e: Event)
    requires Consistent(s)
    ensures Consistent(Deliver(s, e))
  {
    match e
    case Change(value) => HtmlInput.EmailValueIdempotent(value);
    case Submit =>
      if HtmlInput.IsValidEmailAddress(s.email) {
        HtmlInput.ValidAddressHasAt(s.email);
      }
    case TimerFired => EmptyEmailSanitized();
  }

  /** Every reachable state is consistent: the timer only completes an address with an `@`. */
  lemma {:induction false} RunKeepsConsistent(events: seq<Event>)
    ensures Consistent(Run(Initial, events))
  {
    if events != [] {
      RunKeepsConsistent(events[..|events| - 1]);
      DeliverKeepsConsistent(Run(Initial, events[..|events| - 1]), events[|events| - 1]);
    } else {
      EmptyEmailSanitized();
    }
  }

  /** A state whose message fits its status never shows the handler's invalid-email message. */
  lemma MessageFitsHidesInvalidEmailMessage(s: NewsletterState)
    requires MessageFitsStatus(s)
    ensures s.message != InvalidEmailMessage
  {
    if s.message == MissingEmailMessage {
      assert s.message[13] != InvalidEmailMessage[13];
    } else if s.message == ThankYouMessage {
      assert |s.message| != |InvalidEmailMessage|;
    }
  }

  /** The handler's invalid-email message is never shown: the browser rejects those addresses first. */
  lemma {:induction false} InvalidEmailMessageNeverShown(events: seq<Event>)
    ensures Run(Initial, events).message != InvalidEmailMessage
  {
    RunKeepsConsistent(events);
    MessageFitsHidesInvalidEmailMessage(Run(Initial, events));
  }

  /** The component's state. */
  class NewsletterForm {
    var email: string
    var status: Status
    var message: string

    function State(): NewsletterState
      reads this
    {
      NewsletterState(email, status, message)
    }

    constructor ()
      ensures State() == Initial
    {
      email := "";
      status := Idle;
      message := "";
    }

    /** The input's change event after `value` was typed (`setEmail(e.target.value)`); a disabled input sends none. */
    method OnChange(value: string)
      modifies this
      ensures State() == Deliver(old(State()), Change(value))
    {
      if status != Loading {
        email := HtmlInput.EmailValue(value);
      }
    }

    /** A submit event; the disabled button and an invalid address send none. */
    method OnSubmit()
      modifies this
      ensures State() == Deliver(old(State()), Submit)
    {
      if status == Loading || HtmlInput.SuffersTypeMismatch(email) {
        return;
      }
      if email == "" {
        status := Error;
        message := MissingEmailMessage;
        return;
      }
      // The handler's `@` check cannot fail here: the browser has already rejected such an address.
      assert '@' in email;
      status := Loading;
    }

    /** The two-second timer fires; it is pending exactly while loading. */
    method OnTimerFired()
      modifies this
      ensures State() == Deliver(old(State()), TimerFired)
    {
      if status == Loading {
        status := Success;
        message := ThankYouMessage;
        email := "";
      }
    }
  }
}
