/**
 * The mail transport, kept abstract: whether creating the transporter
 * returns, and whether each `sendMail` call returns or throws, are inputs.
 * The transporter records every message handed to it, in order.
 */
module Transport {
  import opened JsValue
  import opened Compose

  /** What one `sendMail` call does: return normally, or throw. */
  datatype SendOutcome = Returns | Throws

  /**
   * What the handlers depend on outside their own code: the configured
   * account address (EMAIL_USER, `undefined` when unset), whether
   * `nodemailer.createTransporter(…)` returns, and the outcomes of the
   * transporter's successive `sendMail` calls; a call past the end of the
   * script returns normally.
   */
  datatype Setup = Setup(operator: Value, transporterCreated: bool, script: seq<SendOutcome>)

  /** The outcome of the `k`-th `sendMail` call (counting from 0). */
  function OutcomeAt(script: seq<SendOutcome>, k: nat): SendOutcome {
    if k < |script| then script[k] else Returns
  }

  /** What the two sends did: the messages handed to `sendMail`, and whether both calls returned. */
  datatype Dispatch = Dispatch(attempted: seq<OutboundEmail>, completed: bool)

  /** `await sendMail(first); await sendMail(second);`, cut short by the first throw. */
  function SendBoth(script: seq<SendOutcome>, first: OutboundEmail, second: OutboundEmail): Dispatch {
    if OutcomeAt(script, 0) == Throws then Dispatch([first], false)
    else if OutcomeAt(script, 1) == Throws then Dispatch([first, second], false)
    else Dispatch([first, second], true)
  }

  /**
   * The first message is always attempted and always first; the second is
   * attempted exactly when the first returned; the pair completes exactly
   * when both calls return.
   */
  lemma SendOrder(script: seq<SendOutcome>, first: OutboundEmail, second: OutboundEmail)
    ensures SendBoth(script, first, second).attempted
         == if OutcomeAt(script, 0) == Throws then [first] else [first, second]
    ensures SendBoth(script, first, second).completed
        <==> OutcomeAt(script, 0) == Returns && OutcomeAt(script, 1) == Returns
  {
  }

  /** A transporter whose `sendMail` calls follow `script`. */
  class Transporter {
    const script: seq<SendOutcome>
    /** Every message handed to `sendMail` so far, in call order. */
    var sent: seq<OutboundEmail>

    constructor (script: seq<SendOutcome>)
      ensures this.script == script && sent == []
    {
      this.script := script;
      sent := [];
    }

    /** `await transporter.sendMail(m)`: records the attempt, then returns or throws. */
    method SendMail(m: OutboundEmail) returns (threw: bool)
      modifies this
      ensures sent == old(sent) + [m]
      ensures threw <==> OutcomeAt(script, |old(sent)|) == Throws
    {
      threw := OutcomeAt(script, |sent|) == Throws;
      sent := sent + [m];
    }
  }
}
