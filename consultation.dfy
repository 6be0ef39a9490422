/**
 * The serverless endpoint that relays a consultation request as an email
 * (api/send-consultation.js). A request and its environment map to exactly
 * one response through a chain of early returns: OPTIONS, method check,
 * body destructuring, required-field check, API-key check, the send itself.
 *
 * The email provider is not modelled: the handler receives the outcome the
 * provider's `send` call would have (a resolved reply or a thrown value) and
 * reports the email it would have passed to it.
 */
module Consultation {
  import opened Wrappers
  import opened JsValues

  /** The parsed request body, as the handler's destructuring sees it
      (`projectType` is the JSON property `type`). */
  datatype Payload =
    | Absent                 // req.body is undefined
    | NullBody               // req.body is null
    | Fields(name: JsValue, email: JsValue, projectType: JsValue, budget: JsValue, message: JsValue)

  datatype Request = Request(httpMethod: string, body: Payload)

  /**
   * What the email provider's `send` call does when it is reached: it
   * resolves (`id` is `emailResponse?.id`, which the handler never checks)
   * or it throws.
   */
  datatype SendOutcome = SendResolved(id: JsValue) | SendThrew(error: Thrown)

  /** What has been written as the response body. */
  datatype ResponseBody =
    | Unwritten
    | Ended                                        // `res.end()` with no body
    | ErrorJson(error: string)                     // `{ error }`
    | FailureJson(error: string, details: string)  // `{ error, details }`
    | SuccessJson(success: bool, id: JsValue, message: string)

  /** The fields of the outgoing email that are not HTML markup. */
  datatype Email = Email(from: string, to: string, replyTo: string, subject: string, budget: string)

  /** Everything one invocation of the handler produces. */
  datatype Reply = Reply(status: int, headers: map<string, string>, body: ResponseBody, attempted: Option<Email>)

  const CredentialsHeader := "Access-Control-Allow-Credentials"
  const CredentialsValue := "true"
  const OriginHeader := "Access-Control-Allow-Origin"
  const OriginValue := "*"
  const MethodsHeader := "Access-Control-Allow-Methods"
  const MethodsValue := "GET,OPTIONS,PATCH,DELETE,POST,PUT"
  const HeadersHeader := "Access-Control-Allow-Headers"
  const HeadersValue := "X-CSRF-Token, X-Requested-With, Accept, Accept-Version, Content-Length, Content-MD5, Content-Type, Date, X-Api-Version"

  const Sender := "Nirvana Interiors <inquiries@nirvanainteriors.studio>"
  const Recipient := "gamerfreakin6@gmail.com"
  const MethodNotAllowed := "Method not allowed"
  const MissingFields := "Missing required fields"
  const NotConfigured := "Email service not configured"
  const SendFailed := "Failed to send email"
  const SentMessage := "Consultation request sent successfully"
  const BudgetDefault := "Not specified"

  /** The four cross-origin headers written before any branch is taken. */
  function CorsHeaders(): map<string, string> {
    map[
      CredentialsHeader := CredentialsValue,
      OriginHeader := OriginValue,
      MethodsHeader := MethodsValue,
      HeadersHeader := HeadersValue
    ]
  }

  /** `!name || !email || !message`; `type` and `budget` are never checked. */
  predicate MissingRequired(p: Payload)
    requires p.Fields?
  {
    !Truthy(p.name) || !Truthy(p.email) || !Truthy(p.message)
  }

  /** A body that gets past destructuring and the required-field check. */
  predicate Complete(p: Payload) {
    p.Fields? && !MissingRequired(p)
  }

  /**
   * The TypeError that destructuring an undefined or null body throws
   * (the wording is that of the V8 engine).
   */
  function DestructureError(p: Payload): (t: Thrown)
    requires !p.Fields?
    ensures t.ErrorValue?
  {
    ErrorValue("Cannot destructure property 'name' of 'req.body' as it is "
               + (if p.Absent? then "undefined" else "null") + ".")
  }

  /** `error instanceof Error ? error.message : String(error)`. */
  function Details(t: Thrown): (d: string)
    ensures t.ErrorValue? ==> d == t.message
    ensures t.OtherValue? ==> d == Text(t.value)
  {
    match t
    case ErrorValue(m) => m
    case OtherValue(v) => Text(v)
  }

  /** The non-markup part of the email handed to the provider. */
  function ComposeEmail(p: Payload): (e: Email)
    requires Complete(p)
    ensures e.from == Sender && e.to == Recipient
    ensures e.replyTo == p.email.s
    ensures e.subject == "New " + Text(p.projectType) + " Project Inquiry from " + p.name.s
    ensures e.budget == BudgetDefault <==> !Truthy(p.budget) || p.budget.s == BudgetDefault
    ensures Truthy(p.budget) ==> e.budget == p.budget.s
  {
    Email(Sender, Recipient, Text(p.email), "New " + Text(p.projectType) + " Project Inquiry from " + Text(p.name),
          OrElse(p.budget, BudgetDefault))
  }

  /**
   * The whole handler as one decision. Its contract lists, path by path,
   * what every request yields.
   */
  function Handle(req: Request, keyPresent: bool, send: SendOutcome): (r: Reply)
    // every path carries the same four headers and one of four statuses
    ensures r.headers == CorsHeaders()
    ensures r.status in {200, 400, 405, 500}
    // OPTIONS: 200, empty body, nothing validated or sent
    ensures req.httpMethod == "OPTIONS" ==> r.status == 200 && r.body == Ended && r.attempted == None
    // any other method except POST: 405
    ensures r.status == 405 <==> req.httpMethod != "OPTIONS" && req.httpMethod != "POST"
    ensures r.status == 405 ==> r.body == ErrorJson(MethodNotAllowed)
    // a falsy required field: 400, before the key is consulted
    ensures r.status == 400 <==> req.httpMethod == "POST" && req.body.Fields? && MissingRequired(req.body)
    ensures r.status == 400 ==> r.body == ErrorJson(MissingFields) && r.attempted == None
    // an absent body throws inside `try`: 500, not 400
    ensures req.httpMethod == "POST" && !req.body.Fields? ==>
              r.status == 500 && r.body == FailureJson(SendFailed, Details(DestructureError(req.body)))
    // no key: 500 and no send
    ensures r.body == ErrorJson(NotConfigured) <==> req.httpMethod == "POST" && Complete(req.body) && !keyPresent
    // the send is attempted exactly for a complete POST with a key, with the composed email
    ensures r.attempted.Some? <==> req.httpMethod == "POST" && Complete(req.body) && keyPresent
    ensures r.attempted.Some? ==> r.attempted.value == ComposeEmail(req.body)
    // a POST succeeds exactly when the send was attempted and resolved
    ensures req.httpMethod != "OPTIONS" && r.status == 200 <==> r.attempted.Some? && send.SendResolved?
    ensures req.httpMethod != "OPTIONS" && r.status == 200 ==> r.body == SuccessJson(true, send.id, SentMessage)
    ensures r.attempted.Some? && send.SendThrew? ==>
              r.status == 500 && r.body == FailureJson(SendFailed, Details(send.error))
  {
    var h := CorsHeaders();
    if req.httpMethod == "OPTIONS" then Reply(200, h, Ended, None)
    else if req.httpMethod != "POST" then Reply(405, h, ErrorJson(MethodNotAllowed), None)
    else if !req.body.Fields? then
      Reply(500, h, FailureJson(SendFailed, Details(DestructureError(req.body))), None)
    else if MissingRequired(req.body) then Reply(400, h, ErrorJson(MissingFields), None)
    else if !keyPresent then Reply(500, h, ErrorJson(NotConfigured), None)
    else
      var email := ComposeEmail(req.body);
      match send
      case SendResolved(id) => Reply(200, h, SuccessJson(true, id, SentMessage), Some(email))
      case SendThrew(t) => Reply(500, h, FailureJson(SendFailed, Details(t)), Some(email))
  }

  /** Writing the four headers one by one overlays `CorsHeaders()` on what was there. */
  lemma CorsHeadersWritten(before: map<string, string>, after: map<string, string>)
    requires after == before[CredentialsHeader := CredentialsValue]
                            [OriginHeader := OriginValue]
                            [MethodsHeader := MethodsValue]
                            [HeadersHeader := HeadersValue]
    ensures after == before + CorsHeaders()
  {
  }

  /** The mutable response object the platform hands to the handler. */
  class Response {
    var statusCode: int
    var headers: map<string, string>
    var body: ResponseBody

    /** A fresh response: status 200, no headers, nothing written. */
    constructor ()
      ensures statusCode == 200 && headers == map[] && body == Unwritten
    {
      statusCode := 200;
      headers := map[];
      body := Unwritten;
    }

    /** `res.setHeader(name, value)` */
    method SetHeader(name: string, value: string)
      modifies this
      ensures headers == old(headers)[name := value]
      ensures statusCode == old(statusCode) && body == old(body)
    {
      headers := headers[name := value];
    }

    /** `res.status(code)` */
    method Status(code: int)
      modifies this
      ensures statusCode == code
      ensures headers == old(headers) && body == old(body)
    {
      statusCode := code;
    }

    /** `res.json(b)` */
    method Json(b: ResponseBody)
      requires b.ErrorJson? || b.FailureJson? || b.SuccessJson?
      modifies this
      ensures body == b
      ensures statusCode == old(statusCode) && headers == old(headers)
    {
      body := b;
    }

    /** `res.end()` */
    method End()
      modifies this
      ensures body == Ended
      ensures statusCode == old(statusCode) && headers == old(headers)
    {
      body := Ended;
    }
  }

  /**
   * The handler run step by step against a response object: headers first,
   * then the guards, with the `try`/`catch` around destructuring and the send.
   * It returns the email passed to the provider, if the send was reached.
   */
  method Serve(req: Request, keyPresent: bool, send: SendOutcome, res: Response) returns (attempted: Option<Email>)
    modifies res
    ensures res.headers == old(res.headers) + CorsHeaders()
    ensures res.statusCode == Handle(req, keyPresent, send).status
    ensures res.body == Handle(req, keyPresent, send).body
    ensures attempted == Handle(req, keyPresent, send).attempted
  {
    res.SetHeader(CredentialsHeader, CredentialsValue);
    res.SetHeader(OriginHeader, OriginValue);
    res.SetHeader(MethodsHeader, MethodsValue);
    res.SetHeader(HeadersHeader, HeadersValue);
    CorsHeadersWritten(old(res.headers), res.headers);
    attempted := None;

    if req.httpMethod == "OPTIONS" {
      res.Status(200);
      res.End();
      return;
    }
    if req.httpMethod != "POST" {
      res.Status(405);
      res.Json(ErrorJson(MethodNotAllowed));
      return;
    }

    // try
    var caught: Thrown;
    if !req.body.Fields? {
      caught := DestructureError(req.body);
    } else if MissingRequired(req.body) {
      res.Status(400);
      res.Json(ErrorJson(MissingFields));
      return;
    } else if !keyPresent {
      res.Status(500);
      res.Json(ErrorJson(NotConfigured));
      return;
    } else {
      attempted := Some(ComposeEmail(req.body));
      match send
      case SendResolved(id) =>
        res.Status(200);
        res.Json(SuccessJson(true, id, SentMessage));
        return;
      case SendThrew(t) =>
        caught := t;
    }
    // catch
    res.Status(500);
    res.Json(FailureJson(SendFailed, Details(caught)));
  }
}
