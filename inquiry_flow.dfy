/**
 * The booking page and the endpoint together: the form the page posts,
 * what the endpoint replies, and what the page then shows.
 */
module InquiryFlow {
  import opened JsValues
  import C = Consultation
  import B = Booking

  /** `JSON.stringify(formState)` as the endpoint destructures it: five strings. */
  function Posted(f: B.Form): (p: C.Payload)
    ensures p.Fields? && p.name == Str(f.name) && p.email == Str(f.email) && p.message == Str(f.message)
    ensures p.projectType == Str(f.projectType) && p.budget == Str(f.budget)
  {
    C.Fields(Str(f.name), Str(f.email), Str(f.projectType), Str(f.budget), Str(f.message))
  }

  /** `response.ok`: a 2xx status. */
  predicate Ok(status: int) {
    200 <= status <= 299
  }

  /**
   * What the page's `fetch` and `response.json()` make of a reply. A body
   * ended without JSON makes `response.json()` reject with a SyntaxError.
   */
  function Observed(r: C.Reply): (o: B.SubmitOutcome)
    ensures r.body.ErrorJson? || r.body.FailureJson? ==>
              o == B.Responded(Ok(r.status), B.JsonObject(Str(r.body.error)))
    ensures r.body.SuccessJson? ==> o == B.Responded(Ok(r.status), B.JsonObject(Undefined))
    ensures r.body.Ended? || r.body.Unwritten? ==> o.Rejected? && o.thrown.ErrorValue?
  {
    match r.body
    case ErrorJson(e) => B.Responded(Ok(r.status), B.JsonObject(Str(e)))
    case FailureJson(e, _) => B.Responded(Ok(r.status), B.JsonObject(Str(e)))
    case SuccessJson(_, _, _) => B.Responded(Ok(r.status), B.JsonObject(Undefined))
    case Ended => B.Rejected(ErrorValue("Unexpected end of JSON input"))
    case Unwritten => B.Rejected(ErrorValue("Unexpected end of JSON input"))
  }

  /** The page's reply from the endpoint for a posted form. */
  function Submit(f: B.Form, keyPresent: bool, send: C.SendOutcome): C.Reply {
    C.Handle(C.Request("POST", Posted(f)), keyPresent, send)
  }

  /** The browser lets the form be submitted: every `required` input is filled. */
  predicate PassesRequired(f: B.Form) {
    forall g :: B.Required(g) ==> f.Get(g) != ""
  }

  /**
   * A form the browser lets through may still have an empty message; the
   * endpoint rejects it with 400 and the page shows the endpoint's error.
   */
  lemma EmptyMessageRejectedByServer(f: B.Form, keyPresent: bool, send: C.SendOutcome)
    requires PassesRequired(f) && f.message == ""
    ensures Submit(f, keyPresent, send).status == 400
    ensures B.Settle(Observed(Submit(f, keyPresent, send))) == B.Failed(C.MissingFields)
  {
  }

  /**
   * For every form the browser lets through, the page ends up submitted
   * exactly when the message is filled in, the key is configured and the
   * provider's send resolves; otherwise it shows the endpoint's error string.
   */
  lemma SubmissionOutcome(f: B.Form, keyPresent: bool, send: C.SendOutcome)
    requires PassesRequired(f)
    ensures var s := B.Settle(Observed(Submit(f, keyPresent, send)));
            && (s.Submitted? <==> f.message != "" && keyPresent && send.SendResolved?)
            && (f.message != "" && !keyPresent ==> s == B.Failed(C.NotConfigured))
            && (f.message != "" && keyPresent && send.SendThrew? ==> s == B.Failed(C.SendFailed))
  {
    assert B.Required(B.NameField) && B.Required(B.EmailField);
  }

  /**
   * The email for a posted form replies to the submitter, names the project
   * type and the submitter in its subject, and shows 'Not specified' for an
   * empty budget.
   */
  lemma PostedFormEmail(f: B.Form, send: C.SendOutcome)
    requires PassesRequired(f) && f.message != ""
    ensures var r := Submit(f, true, send);
            && r.attempted.Some?
            && r.attempted.value.replyTo == f.email
            && r.attempted.value.subject == "New " + f.projectType + " Project Inquiry from " + f.name
            && (f.budget == "" ==> r.attempted.value.budget == C.BudgetDefault)
  {
    assert B.Required(B.NameField) && B.Required(B.EmailField);
  }
}
