/**
 * How the two handlers compare: they agree on status, body and sends for
 * every method but the pre-flight one, and differ on OPTIONS and on headers.
 */
module Platforms {
  import opened Wrappers
  import opened JsValue
  import opened Transport
  import opened Http
  import Netlify
  import Vercel

  /** Outside OPTIONS, the two handlers give the same status, body and sends on the same body. */
  lemma AgreeOffPreflight(verb: string, body: Value, setup: Setup)
    requires verb != "OPTIONS"
    ensures var n, v := Netlify.Respond(Netlify.Event(verb, Some(body)), setup),
                        Vercel.Respond(Vercel.Request(verb, body), setup);
      && n.response.statusCode == v.response.statusCode
      && n.response.body == v.response.body
      && n.sent == v.sent
  {
  }

  /** A body that fails to parse behaves like a missing `req.body`: both answer 500 without sending. */
  lemma ParseFailureLikeMissingBody(setup: Setup)
    ensures var n, v := Netlify.Respond(Netlify.Event("POST", None), setup),
                        Vercel.Respond(Vercel.Request("POST", Undefined), setup);
      && n.response.statusCode == v.response.statusCode == 500
      && n.response.body == v.response.body == Json(SendFailed)
      && n.sent == v.sent == []
  {
  }

  /** On OPTIONS the event-style handler refuses with 405 while the other answers an empty 200. */
  lemma PreflightDiffers(body: Value, setup: Setup)
    ensures Netlify.Respond(Netlify.Event("OPTIONS", Some(body)), setup).response.statusCode == 405
    ensures Vercel.Respond(Vercel.Request("OPTIONS", body), setup).response
         == Response(200, Vercel.CorsHeaders, Empty)
  {
  }

  /**
   * The event-style handler's headers are never more than the other's: none
   * on 400 and 405, and on 200 and 500 all but Allow-Methods.
   */
  lemma HeadersDiffer(verb: string, body: Value, setup: Setup)
    ensures var n, v := Netlify.Respond(Netlify.Event(verb, Some(body)), setup),
                        Vercel.Respond(Vercel.Request(verb, body), setup);
      && n.response.headers.Keys <= v.response.headers.Keys
      && AllowMethods !in n.response.headers
      && AllowMethods in v.response.headers
      && (n.response.statusCode == 400 || n.response.statusCode == 405 ==> n.response.headers == map[])
  {
    Netlify.HeadersByStatus(Netlify.Event(verb, Some(body)), setup);
  }
}
