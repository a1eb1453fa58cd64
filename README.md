# Contact-form handler, modelled in Dafny

The repository is the backend of a portfolio site's contact form. It is one
request handler written twice, once per hosting platform:

- `index.js` exports an event-style `handler(event)` that returns response
  literals;
- `api/contact.js` exports a `(req, res)` function that writes into a
  response object.

Both run the same chain. First a method gate. Then the body's `name`,
`email`, `phone`, `subject` and `message` are destructured, and the four
required ones are checked for presence under JavaScript truthiness. Then a
transporter is created and two messages are built: a notification to the
site owner and an auto-reply to the submitter. The two messages are sent
one after the other, and the outcome becomes 405, 400, 500 or 200 with a
fixed JSON body.

The model is split by concern:

- `jsvalue.dfy`: `Wrappers.Option`; `JsValue.Value`, the values JSON can
  produce plus `undefined`; `Truthy`; and `Renderable`, which says whether a
  template substitution `${v}` can convert the value to a string.
- `submission.dfy`: destructuring (it throws on `undefined`/`null`) and the
  presence-only validation.
- `compose.dfy`: the two message templates. Bodies are sequences of lines
  with the markup dropped. Substituted values are kept raw, since the code
  does no escaping. Subjects are template literals (`Lit` / `Hole` parts).
- `transport.dfy`: the abstract transport. A `Transporter` class follows a
  script of per-call outcomes (returns or throws) and records every message
  handed to `sendMail`.
- `core.dfy`: the part of the `try` block the two files share word for
  word once they hold the body (api/contact.js:21-117 repeats
  index.js:14-120 except for the body source and the return statements).
  `Core.Attempt` specifies it and `Core.Run` executes it against a
  `Transporter`.
- `netlify.dfy`: the `index.js` handler. `Respond` is its specification;
  `Handler` is the method.
- `vercel.dfy`: the `api/contact.js` handler. A `ServerResponse` class with
  header map, status, body and an ended flag is updated by `SetHeader`,
  `Status`, `SendJson` and `End`. `Respond` is the specification; `Handle`
  is the method that mutates the response.
- `platforms.dfy`: lemmas comparing the two handlers.

Inputs from outside these two files are parameters (`Transport.Setup`):

- the configured account address (`EMAIL_USER`, possibly `undefined`);
- whether creating the transporter returns;
- the outcome of each successive `sendMail` call. Calls past the end of the
  script return normally.

In `index.js` the result of `JSON.parse(event.body)` is an input
(`Event.parsedBody`, None when parsing throws). In `api/contact.js`,
`req.body` is an input value (`undefined` when there is none).

Three behaviours of the code are worth noting, and the model keeps each:

- In `index.js` only the 200 and 500 literals carry cross-origin headers,
  and they do not include `Access-Control-Allow-Methods`. The 400 and 405
  carry none.
- `index.js` has no OPTIONS branch, so OPTIONS gets 405 there, while
  `api/contact.js` answers it with an empty 200.
- Building the messages can throw: a substitution `${v}` throws a TypeError
  when `v` is a JSON object with its own `toString` key, directly or inside
  an array. That throw happens inside the `try`, so it gives the 500 with
  nothing sent.

## Model

| member | source | states |
|---|---|---|
| JsValue.FalsyValues | index.js:17 | exactly `undefined`, `null`, `false`, `0` and `""` are falsy, so they are the values that fail the presence check |
| Submission.DestructureThrows | index.js:14 | destructuring the body throws exactly when the body is `undefined` or `null` |
| Submission.ObjectValidation | index.js:17-22 | for an object body, validation passes exactly when name, email, subject and message are all present and truthy |
| Submission.NonObjectRejected | api/contact.js:21-26 | a boolean, number, string or array body destructures to undefined fields and fails validation |
| Submission.PhoneNotChecked | index.js:17 | the validation result does not depend on `phone` |
| Compose.NotificationAddressing | index.js:34-37 | the notification goes from and to the operator address, and its subject is exactly "Portfolio Contact: " followed by the submitted subject |
| Compose.NotificationFields | index.js:45-48 | the notification's labelled fields are Name, Email, Subject, with a Phone field between Email and Subject exactly when `phone` is truthy and no placeholder otherwise |
| Compose.NotificationSubstitutions | index.js:45-58 | the notification body substitutes name, email, the phone only when truthy, subject, message, and the email as both the mailto: target and the text of the reply-to link |
| Compose.AutoReplyContent | index.js:67-99 | the auto-reply goes from the operator address to the submitter's email under the fixed thank-you subject; it greets by name, restates subject and message, substitutes nothing else, and ends with the whole signature block: the "Gowtham V" identity lines and the LinkedIn, GitHub and mailto links |
| Compose.ComposesIff | api/contact.js:38-108 | building both messages completes exactly when name, email, subject and message convert to strings, and the phone too when truthy |
| Compose.FixedLines | index.js:88-100 | lines of fixed text and links (the signature block) substitute nothing and hold no field |
| Transport.SendOrder | index.js:107-108 | the notification is always attempted first; the auto-reply is attempted exactly when the notification call returned; the pair completes exactly when both calls return |
| Transport.Transporter.SendMail | api/contact.js:111-112 | each call records its message after those already sent, and throws exactly when the script says so for that call's position |
| Core.Run | index.js:14-120 | the shared try block run step by step against a recording transporter gives exactly the outcome `Core.Attempt` specifies |
| Core.InvalidIff | index.js:17-22 | the early missing-fields return happens exactly when the body destructures and a required field is falsy |
| Core.NoSendUnlessReady | index.js:24-108 | nothing is handed to `sendMail` unless the body destructures and validates, the transporter is created and both messages are built |
| Core.SendPhase | index.js:106-120 | a throw from the notification ends the block with only the notification attempted; a throw from the auto-reply ends it as a failure with both attempted; only two returning sends deliver |
| Core.DeliveredIff | index.js:107-120 | the block delivers exactly when every step succeeds, and then it has sent the notification and the auto-reply, in that order |
| Core.SentIsPrefix | index.js:34-69 | at most two messages are attempted; the first goes from and to the operator address, and the second to the submitter's email |
| Netlify.Respond | index.js:4-136 | every event gets 200, 400, 405 or 500; 405 exactly for non-POST methods; sending only happens for a POST whose body parsed |
| Netlify.Handler | index.js:4-136 | the handler's returned literal and its sends equal `Netlify.Respond` for every event and transport behaviour |
| Netlify.NonPostRejected | index.js:6-11 | any method other than POST, OPTIONS included, gets 405 `{message:'Method Not Allowed'}` with no headers and no sends |
| Netlify.MissingFieldRejected | index.js:17-22 | a falsy required field gives 400 with the fill-in message, no headers and no sends |
| Netlify.UnreadableBodyFails | index.js:122-135 | a body that does not parse, or parses to `null`, gives the catch branch's 500 with no sends |
| Netlify.SendOrderAndResult | index.js:106-135 | the notification throwing gives 500 with only it attempted; the auto-reply throwing gives 500 after both; both returning gives the 200 literal |
| Netlify.SuccessIff | index.js:110-120 | status 200 is returned exactly when the method is POST, the body parsed and the shared block delivered, and then the body is the success reply and two messages were sent |
| Netlify.HeadersByStatus | index.js:110-129 | the 200 and 500 responses carry Allow-Origin `*` and Allow-Headers `Content-Type`; the 400 and 405 carry no headers |
| Netlify.SentMessages | index.js:34-108 | whatever is sent, the first message is the notification, from and to the operator address; a second message is the auto-reply to the submitter's email |
| Vercel.Respond | api/contact.js:4-126 | every request gets 200, 400, 405 or 500; the body is empty exactly for OPTIONS; sending only happens for POST |
| Vercel.Handle | api/contact.js:4-126 | the handler adds the three headers to the response and leaves it ended with the status and body `Vercel.Respond` specifies; its sends are the specified ones |
| Vercel.ServerResponse.SetHeader | api/contact.js:6-8 | setting a header adds or replaces that one entry and changes nothing else |
| Vercel.ServerResponse.Status | api/contact.js:114 | `res.status` sets the status code and changes nothing else |
| Vercel.ServerResponse.SendJson | api/contact.js:114-117 | `res.json` sets the JSON body and ends the response, keeping headers and status |
| Vercel.ServerResponse.End | api/contact.js:12 | `res.end()` ends the response with an empty body, keeping headers and status |
| Vercel.ServerResponse.constructor | api/contact.js:4 | a fresh response has no headers, status 200 and nothing sent |
| Vercel.CorsOnEveryResponse | api/contact.js:6-8 | every response carries Allow-Origin `*`, Allow-Methods `POST, OPTIONS` and Allow-Headers `Content-Type`, the 400 and 405 included |
| Vercel.PreflightAnswered | api/contact.js:11-13 | OPTIONS gets an empty 200 with no sends |
| Vercel.OtherMethodsRejected | api/contact.js:16-18 | a method that is neither OPTIONS nor POST gets 405 `{message:'Method Not Allowed'}` and no sends |
| Vercel.MissingFieldRejected | api/contact.js:24-26 | a falsy required field gives 400 with the fill-in message and no sends |
| Vercel.MissingBodyFails | api/contact.js:119-125 | a POST with an `undefined` or `null` body makes destructuring throw, which gives 500 with the failure message and no sends |
| Vercel.RepliesGoToSubmitter | api/contact.js:62-73 | when both messages go out, the first is the notification to the operator address, its reply-to link holds the submitter's email, and the auto-reply goes to that email |
| Vercel.SendFailureReported | api/contact.js:111-125 | either send throwing gives 500 `{success:false, message:'Failed to send message. Please try again.'}`, after only the notification when it threw and after both otherwise |
| Vercel.SuccessOnlyAfterBothSends | api/contact.js:114-117 | the success body is set exactly when the method is POST and the shared block delivered, and then the notification and the auto-reply were sent in that order |
| Platforms.AgreeOffPreflight | api/contact.js:16-125 | for every method but OPTIONS, and in particular every POST, the two handlers agree on status, body and sends for the same body |
| Platforms.ParseFailureLikeMissingBody | index.js:14 | a body that fails to parse in `index.js` behaves like a missing `req.body` in `api/contact.js`: both give 500 with the failure body and no sends |
| Platforms.PreflightDiffers | api/contact.js:11-13 | on OPTIONS, `index.js` answers 405 and `api/contact.js` answers an empty 200 with its three headers |
| Platforms.HeadersDiffer | api/contact.js:6-8 | `index.js` never sends a header `api/contact.js` does not send; it never sends Allow-Methods, and it sends no headers on 400 and 405 |

## Left out

- The mail provider: nodemailer, its `'gmail'` service, SMTP and
  authentication. Transporter creation is an input that either returns or
  throws into the `catch`. The code calls `nodemailer.createTransporter`;
  nodemailer's documented factory is `createTransport`. Whether the call
  returns depends on code that is not part of this model, so it is not
  assumed.
- Transport.Transporter.SendMail: whether a send returns or throws does not
  depend on the message (for example an `undefined` operator address or an
  object as recipient). The outcomes come from the script alone.
- Reading `process.env.EMAIL_USER` and `EMAIL_PASS`: the address is a
  parameter, and the credential only matters to the provider.
- `console.error` logging in both `catch` branches: it has no effect on the
  response.
- The HTML markup and inline styles of both templates: only the lines, their
  fixed texts, labels, substituted values and links are kept.
- String conversion of substituted values: the number format and array
  joining are not modelled. Only whether the conversion throws is
  (`JsValue.Renderable`).
- `JSON.parse` and `JSON.stringify`, and the platform's own body parsing for
  `req.body`: the parse result is an input, and reply bodies are JSON
  objects, not their text.
- Vercel.ServerResponse.SendJson: the platform's `res.json` also sets a
  `Content-Type` header when none is set; the model leaves the headers as
  they are, since that header belongs to the platform and not to this code.
- JavaScript numbers are exact reals here. NaN cannot come from JSON;
  Infinity and -0 behave like other non-zero numbers and like 0 under
  truthiness, which is all the code observes of a number.
- Property reads: `Submission.Read` gives own properties of objects and
  `undefined` otherwise. This is right for the five keys the handlers read,
  not for keys that prototypes define.
- The platforms' request and response lifecycles: routing, timeouts, writing
  to an already-ended response, and the return value of the handlers. The
  platform parses `req.body` lazily, so a malformed JSON body throws from its
  getter inside the `try` and answers 500; `Vercel.Request.body` is an
  already-parsed value and cannot express that case.
  `async`/`await` is strictly sequential here, so it is modelled as ordered
  steps.
