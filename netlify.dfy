/**
 * The handler for the event-style platform (`exports.handler(event)` in
 * index.js): it gates on the method, parses the JSON body, runs the shared
 * block and returns a response literal. Only the 200 and 500 literals carry
 * cross-origin headers, and there is no pre-flight branch.
 */
module Netlify {
  import opened Wrappers
  import opened JsValue
  import opened Submission
  import opened Compose
  import opened Transport
  import opened Http
  import Core

  /**
   * The inbound event: its `httpMethod`, and what `JSON.parse(event.body)`
   * gives (None when parsing throws, `undefined` or malformed text included).
   */
  datatype Event = Event(httpMethod: string, parsedBody: Option<Value>)

  /** The two headers of the 200 and 500 literals. */
  const CorsHeaders: map<string, string> := map[AllowOrigin := "*", AllowHeaders := "Content-Type"]

  /** The `catch` branch's literal. */
  function Caught(sent: seq<OutboundEmail>): Invocation {
    Invocation(Response(500, CorsHeaders, Json(SendFailed)), sent)
  }

  /** The handler's result as a function of the event and the transport's behaviour. */
  function Respond(event: Event, setup: Setup): (r: Invocation)
    ensures r.response.statusCode in {200, 400, 405, 500}
    ensures r.response.statusCode == 405 <==> event.httpMethod != "POST"
    ensures r.sent != [] ==> event.httpMethod == "POST" && event.parsedBody.Some?
  {
    if event.httpMethod != "POST" then
      Invocation(Response(405, map[], Json(MethodNotAllowed)), [])
    else
      match event.parsedBody
      case None => Caught([])
      case Some(body) =>
        match Core.Attempt(body, setup)
        case Invalid => Invocation(Response(400, map[], Json(MissingFields)), [])
        case Failed(sent) => Caught(sent)
        case Delivered(sent) => Invocation(Response(200, CorsHeaders, Json(SendSucceeded)), sent)
  }

  /** `exports.handler`: the response it returns and the messages it handed to `sendMail`. */
  method Handler(event: Event, setup: Setup) returns (response: Response, sent: seq<OutboundEmail>)
    ensures Invocation(response, sent) == Respond(event, setup)
  {
    if event.httpMethod != "POST" {
      return Response(405, map[], Json(MethodNotAllowed)), [];
    }
    if event.parsedBody.None? {
      return Response(500, CorsHeaders, Json(SendFailed)), [];
    }
    var outcome := Core.Run(event.parsedBody.value, setup);
    match outcome
    case Invalid =>
      response, sent := Response(400, map[], Json(MissingFields)), [];
    case Failed(s) =>
      response, sent := Response(500, CorsHeaders, Json(SendFailed)), s;
    case Delivered(s) =>
      response, sent := Response(200, CorsHeaders, Json(SendSucceeded)), s;
  }

  /** Every method but POST, OPTIONS included, gets a header-less 405 and sends nothing. */
  lemma NonPostRejected(event: Event, setup: Setup)
    requires event.httpMethod != "POST"
    ensures Respond(event, setup) == Invocation(Response(405, map[], Json(MethodNotAllowed)), [])
  {
  }

  /** A POST whose body lacks a truthy name, email, subject or message gets a header-less 400 and sends nothing. */
  lemma MissingFieldRejected(event: Event, setup: Setup)
    requires event.httpMethod == "POST" && event.parsedBody.Some?
    requires Destructure(event.parsedBody.value).Some?
    requires !HasRequired(Destructure(event.parsedBody.value).value)
    ensures Respond(event, setup) == Invocation(Response(400, map[], Json(MissingFields)), [])
  {
  }

  /** A body that does not parse, or parses to `null`, lands in the `catch`: 500 and nothing sent. */
  lemma UnreadableBodyFails(event: Event, setup: Setup)
    requires event.httpMethod == "POST"
    requires event.parsedBody.None? || event.parsedBody == Some(Null)
    ensures Respond(event, setup) == Caught([])
  {
  }

  /**
   * With a valid submission and a working start, the notification goes
   * first; if it throws the auto-reply is never attempted and the result is
   * 500; if the auto-reply throws the result is 500 with both attempted; the
   * 200 comes only after both sends return.
   */
  lemma SendOrderAndResult(event: Event, setup: Setup, f: Fields)
    requires event.httpMethod == "POST" && event.parsedBody.Some?
    requires Destructure(event.parsedBody.value) == Some(f) && HasRequired(f)
    requires setup.transporterCreated && Composes(f, setup.operator)
    ensures var n, a := Notification(f, setup.operator), AutoReply(f, setup.operator);
      && (OutcomeAt(setup.script, 0) == Throws ==> Respond(event, setup) == Caught([n]))
      && (OutcomeAt(setup.script, 0) == Returns && OutcomeAt(setup.script, 1) == Throws ==>
            Respond(event, setup) == Caught([n, a]))
      && (OutcomeAt(setup.script, 0) == Returns && OutcomeAt(setup.script, 1) == Returns ==>
            Respond(event, setup) == Invocation(Response(200, CorsHeaders, Json(SendSucceeded)), [n, a]))
  {
    Core.SendPhase(event.parsedBody.value, setup, f);
  }

  /** Status 200 is returned exactly when every step up to and including both sends succeeds. */
  lemma SuccessIff(event: Event, setup: Setup)
    ensures Respond(event, setup).response.statusCode == 200
        <==> && event.httpMethod == "POST"
             && event.parsedBody.Some?
             && Core.Attempt(event.parsedBody.value, setup).Delivered?
    ensures Respond(event, setup).response.statusCode == 200 ==>
              Respond(event, setup).response.body == Json(SendSucceeded)
              && |Respond(event, setup).sent| == 2
  {
    if event.httpMethod == "POST" && event.parsedBody.Some? {
      Core.DeliveredIff(event.parsedBody.value, setup);
    }
  }

  /** The 200 and 500 responses carry the two cross-origin headers; the 400 and 405 carry none. */
  lemma HeadersByStatus(event: Event, setup: Setup)
    ensures var r := Respond(event, setup).response;
      r.headers == if r.statusCode == 200 || r.statusCode == 500 then CorsHeaders else map[]
  {
  }

  /**
   * Whatever is sent, the first message is the notification, from and to
   * the operator address, and a second message, if any, is the auto-reply
   * to the submitter's email.
   */
  lemma SentMessages(event: Event, setup: Setup)
    requires event.httpMethod == "POST" && event.parsedBody.Some?
    ensures var s := Respond(event, setup).sent;
      |s| <= 2
      && (|s| >= 1 ==> s[0].to == setup.operator && s[0].from == setup.operator)
      && (|s| == 2 ==> s[1].to == Destructure(event.parsedBody.value).value.email)
      && (|s| >= 1 ==> Destructure(event.parsedBody.value).Some?
                       && s[0] == Notification(Destructure(event.parsedBody.value).value, setup.operator))
      && (|s| == 2 ==> s[1] == AutoReply(Destructure(event.parsedBody.value).value, setup.operator))
  {
    var body := event.parsedBody.value;
    Core.SentIsPrefix(body, setup);
    if Respond(event, setup).sent != [] {
      Core.NoSendUnlessReady(body, setup);
      Core.SendPhase(body, setup, Destructure(body).value);
    }
  }
}
