/** The response shapes and fixed reply texts the two handlers share. */
module Http {
  import opened Compose

  const AllowOrigin := "Access-Control-Allow-Origin"
  const AllowMethods := "Access-Control-Allow-Methods"
  const AllowHeaders := "Access-Control-Allow-Headers"

  /** The JSON objects the handlers answer with. */
  datatype Reply = Notice(message: string) | Report(success: bool, message: string)

  /** A response body: nothing (`res.end()`), or a JSON object. */
  datatype Body = Empty | Json(reply: Reply)

  datatype Response = Response(statusCode: int, headers: map<string, string>, body: Body)

  /** What one invocation did: the response it produced and the messages it handed to `sendMail`. */
  datatype Invocation = Invocation(response: Response, sent: seq<OutboundEmail>)

  const MethodNotAllowed := Notice("Method Not Allowed")
  const MissingFields := Notice("Please fill in all required fields")
  const SendFailed := Report(false, "Failed to send message. Please try again.")
  const SendSucceeded := Report(true, "Message sent successfully!")
}
