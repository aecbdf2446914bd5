/** The contact form's submission status (the `useFormHandler` hook): four
    flags updated by one submission, which is split at its only suspension
    point into starting the request and handling its outcome, and by the
    "send another request" reset. The network request itself is replaced by
    the outcome it produces. */
module FormHandler {

  datatype Option<T> = None | Some(value: T)

  /** Shown when the relay answers without success and without a message. */
  const RejectionFallback: string := "Щось пішло не так"

  /** Shown when the request or the decoding of its answer fails. */
  const NetworkErrorMessage: string := "Помилка мережі. Спробуйте ще раз."

  /** What the awaited request produced: an answer whose success flag is
      truthy, an answer whose success flag is falsy (with the message field,
      if any), or an exception from `fetch` or `response.json()`. */
  datatype Outcome = Accepted | Rejected(message: Option<string>) | TransportFailure

  /** The four state variables of the hook. */
  datatype Status = Status(isSubmitting: bool, isSuccess: bool, isError: bool, errorMessage: string)

  const Initial: Status := Status(false, false, false, "")

  /** `data.message || fallback`: a missing or empty message is falsy. */
  function RejectionMessage(message: Option<string>): (r: string)
    ensures r != ""
    ensures message.Some? && message.value != "" ==> r == message.value
    ensures message.None? || message.value == "" ==> r == RejectionFallback
  {
    match message
    case Some(m) => if m != "" then m else RejectionFallback
    case None => RejectionFallback
  }

  /** The text shown in the error banner after a failed outcome. */
  function FailureMessage(outcome: Outcome): (r: string)
    requires !outcome.Accepted?
    ensures r != ""
    ensures outcome.TransportFailure? ==> r == NetworkErrorMessage
    ensures outcome.Rejected? ==> r == RejectionMessage(outcome.message)
  {
    if outcome.TransportFailure? then NetworkErrorMessage else RejectionMessage(outcome.message)
  }

  /** The form is rendered only while `!isSuccess` and its button is
      disabled while `isSubmitting`: only then can a submission start. A
      started submission keeps the form shown, with the button disabled and
      no error banner, until it settles. */
  predicate CanSubmit(s: Status)
    ensures CanSubmit(s) ==> Begin(s).isSubmitting && !Begin(s).isSuccess && !Begin(s).isError
  {
    !s.isSuccess && !s.isSubmitting
  }

  /** The synchronous part of a submission, before the request is awaited. */
  function Begin(s: Status): (r: Status)
    ensures r.isSubmitting && !r.isError
    ensures r.isSuccess == s.isSuccess && r.errorMessage == s.errorMessage
    ensures Consistent(s) && !s.isSuccess ==> Consistent(r)
  {
    s.(isSubmitting := true, isError := false)
  }

  /** The part after the request settles; `finally` clears the busy flag. */
  function Complete(s: Status, outcome: Outcome): (r: Status)
    ensures !r.isSubmitting
    ensures r.isSuccess <==> outcome.Accepted? || s.isSuccess
    ensures r.isError <==> !outcome.Accepted? || s.isError
    ensures outcome.Accepted? ==> r.errorMessage == s.errorMessage
    ensures !outcome.Accepted? ==> r.errorMessage == FailureMessage(outcome) && r.errorMessage != ""
    ensures Consistent(s) && s.isSubmitting ==> Consistent(r)
  {
    var settled := if outcome.Accepted? then s.(isSuccess := true)
                   else s.(isError := true, errorMessage := FailureMessage(outcome));
    settled.(isSubmitting := false)
  }

  /** The "send another request" button: afterwards the form is shown and
      can be sent unless a request is still outstanding. */
  function Reset(s: Status): (r: Status)
    ensures !r.isSuccess && !r.isError && r.errorMessage == ""
    ensures r.isSubmitting == s.isSubmitting
    ensures CanSubmit(r) <==> !s.isSubmitting
    ensures Consistent(s) ==> Consistent(r)
  {
    s.(isSuccess := false, isError := false, errorMessage := "")
  }

  /** What the page can observe: success and error are never both shown,
      nothing is shown while a request is outstanding, and an error banner
      is never empty. */
  predicate Consistent(s: Status) {
    && !(s.isSuccess && s.isError)
    && (s.isSubmitting ==> !s.isSuccess && !s.isError)
    && (s.isError ==> s.errorMessage != "")
  }

  /** One whole submission from a state where the button is enabled: the
      busy flag ends cleared, success is reported exactly for an accepted
      answer, an error exactly otherwise with the matching message, and an
      accepted answer leaves the message untouched. */
  lemma SubmissionOutcome(s: Status, outcome: Outcome)
    requires CanSubmit(s)
    ensures var r := Complete(Begin(s), outcome);
      && !r.isSubmitting
      && (r.isSuccess <==> outcome.Accepted?)
      && (r.isError <==> !outcome.Accepted?)
      && (outcome.Accepted? ==> r.errorMessage == s.errorMessage)
      && (outcome.TransportFailure? ==> r.errorMessage == NetworkErrorMessage)
      && (outcome.Rejected? ==> r.errorMessage == RejectionMessage(outcome.message))
  {
  }

  /** A transport failure is reported with a text different from the one
      used for a server rejection without message. */
  lemma FailureTextsDiffer()
    ensures NetworkErrorMessage != RejectionFallback
  {
    assert NetworkErrorMessage[0] != RejectionFallback[0];
  }

  /** User-visible events: pressing submit, the outstanding request settling,
      and pressing "send another request". */
  datatype Event = Submit | Settle(outcome: Outcome) | ResetClick

  /** Whether the page lets the event happen: submit needs the enabled form,
      an outcome needs an outstanding request, and the reset button exists
      only in the success view. */
  predicate Enabled(s: Status, e: Event) {
    match e
    case Submit => CanSubmit(s)
    case Settle(_) => s.isSubmitting
    case ResetClick => s.isSuccess
  }

  /** One event; an event the page does not let happen changes nothing. */
  function Step(s: Status, e: Event): Status {
    if !Enabled(s, e) then s
    else match e
      case Submit => Begin(s)
      case Settle(o) => Complete(s, o)
      case ResetClick => Reset(s)
  }

  /** The status after a sequence of events. */
  function Run(s: Status, events: seq<Event>): Status
    decreases |events|
  {
    if events == [] then s else Run(Step(s, events[0]), events[1..])
  }

  lemma StepKeepsConsistent(s: Status, e: Event)
    requires Consistent(s)
    ensures Consistent(Step(s, e))
  {
  }

  /** Whatever the user does and however the requests end, the observable
      status stays consistent from the initial one. */
  lemma {:induction false} RunKeepsConsistent(s: Status, events: seq<Event>)
    requires Consistent(s)
    ensures Consistent(Run(s, events))
    decreases |events|
  {
    if events != [] {
      StepKeepsConsistent(s, events[0]);
      RunKeepsConsistent(Step(s, events[0]), events[1..]);
    }
  }

  /** A second press of submit while a request is outstanding starts
      nothing; after an error the form can be sent again without a reset. */
  lemma SubmitGuards(s: Status)
    ensures s.isSubmitting ==> Step(s, Submit) == s
    ensures s.isError && !s.isSuccess && !s.isSubmitting ==> Step(s, Submit) == Begin(s)
  {
  }

  /** The hook's state as an object whose fields the transitions update. */
  class Form {
    var isSubmitting: bool
    var isSuccess: bool
    var isError: bool
    var errorMessage: string

    ghost function State(): Status
      reads this
    {
      Status(isSubmitting, isSuccess, isError, errorMessage)
    }

    ghost predicate Valid()
      reads this
    {
      Consistent(State())
    }

    constructor ()
      ensures Valid() && State() == Initial
    {
      isSubmitting, isSuccess, isError, errorMessage := false, false, false, "";
    }

    /** `setIsSubmitting(true); setIsError(false)`. */
    method BeginSubmit()
      requires Valid() && CanSubmit(State())
      modifies this
      ensures Valid() && State() == Begin(old(State()))
      ensures isSubmitting && !isError
      ensures isSuccess == old(isSuccess) && errorMessage == old(errorMessage)
    {
      isSubmitting := true;
      isError := false;
    }

    /** The `try`/`catch`/`finally` after the request settles. */
    method CompleteSubmit(outcome: Outcome)
      requires Valid() && isSubmitting
      modifies this
      ensures Valid() && State() == Complete(old(State()), outcome)
      ensures !isSubmitting
      ensures outcome.Accepted? ==> isSuccess && isError == old(isError) && errorMessage == old(errorMessage)
      ensures !outcome.Accepted? ==> isError && errorMessage == FailureMessage(outcome) && isSuccess == old(isSuccess)
    {
      match outcome {
        case Accepted =>
          isSuccess := true;
        case Rejected(message) =>
          isError := true;
          errorMessage := RejectionMessage(message);
        case TransportFailure =>
          isError := true;
          errorMessage := NetworkErrorMessage;
      }
      isSubmitting := false;
    }

    /** One whole `handleSubmit` whose request produced `outcome`. */
    method HandleSubmit(outcome: Outcome)
      requires Valid() && CanSubmit(State())
      modifies this
      ensures Valid() && State() == Complete(Begin(old(State())), outcome)
      ensures !isSubmitting
      ensures isSuccess <==> outcome.Accepted?
      ensures isError <==> !outcome.Accepted?
    {
      BeginSubmit();
      CompleteSubmit(outcome);
    }

    /** `resetForm`: clears the success and error flags and the message. */
    method ResetForm()
      requires Valid()
      modifies this
      ensures Valid() && State() == Reset(old(State()))
      ensures !isSuccess && !isError && errorMessage == ""
      ensures isSubmitting == old(isSubmitting)
    {
      isSuccess := false;
      isError := false;
      errorMessage := "";
    }
  }
}
