/**
 * The handler for the request/response platform (the exported
 * `(req, res)` function in api/contact.js): it sets three cross-origin
 * headers on the response before anything else, answers the pre-flight
 * OPTIONS with an empty 200, gates on POST, runs the shared block, and sets
 * the status and JSON body on the response object.
 */
module Vercel {
  import opened Wrappers
  import opened JsValue
  import opened Submission
  import opened Compose
  import opened Transport
  import opened Http
  import Core

  /** The inbound request: `req.method` and `req.body` (`undefined` when there is none). */
  datatype Request = Request(httpMethod: string, body: Value)

  /** The three headers set at the top of the handler. */
  const CorsHeaders: map<string, string> :=
    map[AllowOrigin := "*", AllowMethods := "POST, OPTIONS", AllowHeaders := "Content-Type"]

  /** The response object the handler writes into. */
  class ServerResponse {
    var headers: map<string, string>
    var statusCode: int
    var body: Body
    /** Whether `json` or `end` has sent the response. */
    var ended: bool

    /** A fresh response: no headers, the default status 200, nothing sent. */
    constructor ()
      ensures headers == map[] && statusCode == 200 && body == Empty && !ended
    {
      headers := map[];
      statusCode := 200;
      body := Empty;
      ended := false;
    }

    /** `res.setHeader(name, value)`. */
    method SetHeader(name: string, value: string)
      modifies this
      ensures headers == old(headers)[name := value]
      ensures statusCode == old(statusCode) && body == old(body) && ended == old(ended)
    {
      headers := headers[name := value];
    }

    /** `res.status(code)` (its result, the same object, is what the next call is made on). */
    method Status(code: int)
      modifies this
      ensures statusCode == code
      ensures headers == old(headers) && body == old(body) && ended == old(ended)
    {
      statusCode := code;
    }

    /** `res.json(reply)`: sends the reply as the JSON body. */
    method SendJson(reply: Reply)
      modifies this
      ensures body == Json(reply) && ended
      ensures headers == old(headers) && statusCode == old(statusCode)
    {
      body := Json(reply);
      ended := true;
    }

    /** `res.end()`: sends the response with no body. */
    method End()
      modifies this
      ensures body == Empty && ended
      ensures headers == old(headers) && statusCode == old(statusCode)
    {
      body := Empty;
      ended := true;
    }
  }

  /** The response the handler leaves behind, as a function of the request and the transport's behaviour. */
  function Respond(req: Request, setup: Setup): (r: Invocation)
    ensures r.response.statusCode in {200, 400, 405, 500}
    ensures r.response.body == Empty <==> req.httpMethod == "OPTIONS"
    ensures r.sent != [] ==> req.httpMethod == "POST"
  {
    if req.httpMethod == "OPTIONS" then
      Invocation(Response(200, CorsHeaders, Empty), [])
    else if req.httpMethod != "POST" then
      Invocation(Response(405, CorsHeaders, Json(MethodNotAllowed)), [])
    else
      match Core.Attempt(req.body, setup)
      case Invalid => Invocation(Response(400, CorsHeaders, Json(MissingFields)), [])
      case Failed(sent) => Invocation(Response(500, CorsHeaders, Json(SendFailed)), sent)
      case Delivered(sent) => Invocation(Response(200, CorsHeaders, Json(SendSucceeded)), sent)
  }

  /**
   * The exported handler: sets the headers, branches, and writes status and
   * body into `res`; it returns the messages it handed to `sendMail`.
   */
  method Handle(req: Request, res: ServerResponse, setup: Setup) returns (sent: seq<OutboundEmail>)
    modifies res
    ensures res.headers == old(res.headers) + Respond(req, setup).response.headers
    ensures res.statusCode == Respond(req, setup).response.statusCode
    ensures res.body == Respond(req, setup).response.body
    ensures res.ended
    ensures sent == Respond(req, setup).sent
  {
    res.SetHeader(AllowOrigin, "*");
    res.SetHeader(AllowMethods, "POST, OPTIONS");
    res.SetHeader(AllowHeaders, "Content-Type");
    assert res.headers == old(res.headers) + CorsHeaders;

    if req.httpMethod == "OPTIONS" {
      res.Status(200);
      res.End();
      return [];
    }
    if req.httpMethod != "POST" {
      res.Status(405);
      res.SendJson(MethodNotAllowed);
      return [];
    }
    var outcome := Core.Run(req.body, setup);
    match outcome
    case Invalid =>
      res.Status(400);
      res.SendJson(MissingFields);
      sent := [];
    case Failed(s) =>
      res.Status(500);
      res.SendJson(SendFailed);
      sent := s;
    case Delivered(s) =>
      res.Status(200);
      res.SendJson(SendSucceeded);
      sent := s;
  }

  /** Every response carries all three cross-origin headers, the 400 and 405 included. */
  lemma CorsOnEveryResponse(req: Request, setup: Setup)
    ensures Respond(req, setup).response.headers == CorsHeaders
    ensures Respond(req, setup).response.headers[AllowOrigin] == "*"
  {
  }

  /** OPTIONS gets an empty 200 without validation, composition or sending. */
  lemma PreflightAnswered(req: Request, setup: Setup)
    requires req.httpMethod == "OPTIONS"
    ensures Respond(req, setup) == Invocation(Response(200, CorsHeaders, Empty), [])
  {
  }

  /** Any method that is neither OPTIONS nor POST gets 405 and sends nothing. */
  lemma OtherMethodsRejected(req: Request, setup: Setup)
    requires req.httpMethod != "OPTIONS" && req.httpMethod != "POST"
    ensures Respond(req, setup) == Invocation(Response(405, CorsHeaders, Json(MethodNotAllowed)), [])
  {
  }

  /** A POST with a falsy required field gets 400 and sends nothing. */
  lemma MissingFieldRejected(req: Request, setup: Setup)
    requires req.httpMethod == "POST"
    requires Destructure(req.body).Some? && !HasRequired(Destructure(req.body).value)
    ensures Respond(req, setup) == Invocation(Response(400, CorsHeaders, Json(MissingFields)), [])
  {
  }

  /** A POST without a body (or with a `null` one) makes destructuring throw: 500 and nothing sent. */
  lemma MissingBodyFails(req: Request, setup: Setup)
    requires req.httpMethod == "POST" && (req.body == Undefined || req.body == Null)
    ensures Respond(req, setup) == Invocation(Response(500, CorsHeaders, Json(SendFailed)), [])
  {
  }

  /**
   * When both messages go out, the notification's reply-to link and the
   * auto-reply's recipient are both the submitter's email, and the
   * notification goes to the operator address.
   */
  lemma RepliesGoToSubmitter(req: Request, setup: Setup)
    requires req.httpMethod == "POST" && |Respond(req, setup).sent| == 2
    ensures var s, f := Respond(req, setup).sent, Destructure(req.body).value;
      && s[0] == Notification(f, setup.operator)
      && ReplyTo(f.email) in s[0].html
      && s[0].to == setup.operator
      && s[1].to == f.email
  {
    Core.NoSendUnlessReady(req.body, setup);
    var f := Destructure(req.body).value;
    Core.SendPhase(req.body, setup, f);
    NotificationSubstitutions(f, setup.operator);
    NotificationAddressing(f, setup.operator);
    AutoReplyContent(f, setup.operator);
  }

  /**
   * If a send throws the result is 500 with the generic failure body: after
   * the notification alone when it was the one that threw, after both when
   * the auto-reply threw.
   */
  lemma SendFailureReported(req: Request, setup: Setup, f: Fields)
    requires req.httpMethod == "POST"
    requires Destructure(req.body) == Some(f) && HasRequired(f)
    requires setup.transporterCreated && Composes(f, setup.operator)
    requires OutcomeAt(setup.script, 0) == Throws || OutcomeAt(setup.script, 1) == Throws
    ensures Respond(req, setup).response == Response(500, CorsHeaders, Json(SendFailed))
    ensures Respond(req, setup).sent
         == if OutcomeAt(setup.script, 0) == Throws then [Notification(f, setup.operator)]
            else [Notification(f, setup.operator), AutoReply(f, setup.operator)]
  {
    Core.SendPhase(req.body, setup, f);
  }

  /** The success body is set exactly when both sends complete, notification first. */
  lemma SuccessOnlyAfterBothSends(req: Request, setup: Setup)
    ensures Respond(req, setup).response.body == Json(SendSucceeded)
        <==> req.httpMethod == "POST" && Core.Attempt(req.body, setup).Delivered?
    ensures Respond(req, setup).response.body == Json(SendSucceeded) ==>
              Respond(req, setup).sent
              == [Notification(Destructure(req.body).value, setup.operator),
                  AutoReply(Destructure(req.body).value, setup.operator)]
  {
    if req.httpMethod == "POST" {
      Core.DeliveredIff(req.body, setup);
    }
  }
}
