/**
 * The booking page (components/BookingPage.tsx): the inquiry form, edited
 * one field at a time, and the submit handler that posts it and reduces the
 * outcome to three pieces of state: `isSubmitting`, `isSubmitted`, `error`.
 *
 * The network is not modelled: the handler receives the outcome of its
 * `try` block's I/O as a value (development mode, a response with its
 * parsed JSON, or a rejected promise).
 */
module Booking {
  import opened Wrappers
  import opened JsValues

  datatype FieldName = NameField | EmailField | TypeField | BudgetField | MessageField

  /** `formState`; `projectType` is the property `type`. */
  datatype Form = Form(name: string, email: string, projectType: string, budget: string, message: string) {

    function Get(f: FieldName): string {
      match f
      case NameField => name
      case EmailField => email
      case TypeField => projectType
      case BudgetField => budget
      case MessageField => message
    }

    /** `{...formState, [f]: v}`: one field replaced, the others kept. */
    function With(f: FieldName, v: string): (g: Form)
      ensures g.Get(f) == v
      ensures forall h :: h != f ==> g.Get(h) == Get(h)
    {
      match f
      case NameField => this.(name := v)
      case EmailField => this.(email := v)
      case TypeField => this.(projectType := v)
      case BudgetField => this.(budget := v)
      case MessageField => this.(message := v)
    }
  }

  /** The form's initial state: every field empty except the project type. */
  const InitialForm := Form("", "", "Residential", "", "")

  /** The options of the project-type select, in order. */
  const ProjectTypes: seq<string> := ["Residential", "Commercial", "Bespoke Art", "Other"]

  /** Which inputs carry the `required` attribute: name and email, not the message. */
  predicate Required(f: FieldName) {
    f == NameField || f == EmailField
  }

  /** What `response.json()` resolved to, as far as the handler reads it. */
  datatype JsonReply = JsonNull | JsonObject(error: JsValue)

  /** How the I/O inside `try` ended. */
  datatype SubmitOutcome =
    | DevMode                                 // import.meta.env.DEV: no request is made
    | Responded(ok: bool, data: JsonReply)    // fetch and response.json() both resolved
    | Rejected(thrown: Thrown)                // fetch or response.json() rejected

  const FailedRequest := "Failed to send consultation request"
  const GenericError := "Something went wrong. Please try again or email us directly."
  /** The TypeError reading `.error` of a null JSON value throws (V8 wording). */
  const NullErrorRead := "Cannot read properties of null (reading 'error')"

  /** The `try` block: None when it completes, otherwise what it throws. */
  function TryBlock(o: SubmitOutcome): Option<Thrown> {
    match o
    case DevMode => None
    case Responded(ok, data) =>
      if ok then None
      else (
        match data
        case JsonNull => Some(ErrorValue(NullErrorRead))
        case JsonObject(e) => Some(ErrorValue(OrElse(e, FailedRequest))))
    case Rejected(t) => Some(t)
  }

  /** The `catch` clause: an Error's message, a generic text for anything else. */
  function CaughtMessage(t: Thrown): string {
    match t
    case ErrorValue(m) => m
    case OtherValue(_) => GenericError
  }

  datatype Settlement = Submitted | Failed(error: string)

  /** What one submission comes to, once its outcome is known. */
  function Settle(o: SubmitOutcome): (r: Settlement)
    ensures r.Submitted? <==> o.DevMode? || (o.Responded? && o.ok)
    ensures o.Responded? && !o.ok ==> r.Failed? && r.error != ""
    ensures o.Responded? && !o.ok && o.data.JsonObject? ==>
              r == Failed(if Truthy(o.data.error) then o.data.error.s else FailedRequest)
    ensures o.Rejected? ==>
              r == Failed(if o.thrown.ErrorValue? then o.thrown.message else GenericError)
  {
    match TryBlock(o)
    case None => Submitted
    case Some(t) => Failed(CaughtMessage(t))
  }

  /** The page component's state. */
  class BookingPage {
    var formState: Form
    var isSubmitted: bool
    var isSubmitting: bool
    var error: string

    /** The four `useState` initial values. */
    constructor ()
      ensures formState == InitialForm && formState.projectType == ProjectTypes[0]
      ensures !isSubmitted && !isSubmitting && error == ""
    {
      formState := InitialForm;
      isSubmitted := false;
      isSubmitting := false;
      error := "";
    }

    /** The form is on screen and its submit button is enabled. */
    predicate CanSubmit()
      reads this
    {
      !isSubmitted && !isSubmitting
    }

    /** An input's `onChange`: replaces exactly one field. */
    method Edit(f: FieldName, v: string)
      modifies this
      ensures formState == old(formState).With(f, v)
      ensures isSubmitted == old(isSubmitted) && isSubmitting == old(isSubmitting) && error == old(error)
    {
      formState := formState.With(f, v);
    }

    /** The synchronous start of `handleSubmit`: busy, and the old error cleared. */
    method BeginSubmit()
      requires CanSubmit()
      modifies this
      ensures isSubmitting && error == "" && !CanSubmit()
      ensures formState == old(formState) && isSubmitted == old(isSubmitted)
    {
      isSubmitting := true;
      error := "";
    }

    /** The rest of `handleSubmit` once the outcome is known, through `finally`. */
    method FinishSubmit(o: SubmitOutcome)
      requires isSubmitting
      modifies this
      ensures !isSubmitting
      ensures formState == old(formState)
      ensures isSubmitted == (old(isSubmitted) || Settle(o).Submitted?)
      ensures error == if Settle(o).Failed? then Settle(o).error else old(error)
    {
      var thrown := TryBlock(o);
      if thrown.None? {
        isSubmitted := true;
      } else {
        error := CaughtMessage(thrown.value);
      }
      isSubmitting := false;
    }

    /**
     * `handleSubmit` as a whole. It returns the form it posts, or None in
     * development mode, where no request is made.
     */
    method HandleSubmit(o: SubmitOutcome) returns (posted: Option<Form>)
      requires CanSubmit()
      modifies this
      ensures posted == if o.DevMode? then None else Some(old(formState))
      ensures !isSubmitting
      ensures formState == old(formState)
      ensures isSubmitted == (old(isSubmitted) || Settle(o).Submitted?)
      ensures error == if Settle(o).Failed? then Settle(o).error else ""
    {
      BeginSubmit();
      posted := if o.DevMode? then None else Some(formState);
      FinishSubmit(o);
    }
  }
}
