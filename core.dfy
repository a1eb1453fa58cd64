/**
 * The part of the `try` block that both handlers share once they hold the
 * request body: destructure, validate, create the transporter, build the
 * two messages, send them in order. Every throw in it lands in the
 * handler's `catch`.
 */
module Core {
  import opened Wrappers
  import opened JsValue
  import opened Submission
  import opened Compose
  import opened Transport

  /**
   * How the shared block ends: by the early return on a missing field, by a
   * throw caught by the handler, or by reaching the success return; the
   * latter two say which messages were handed to `sendMail`.
   */
  datatype Outcome = Invalid | Failed(sent: seq<OutboundEmail>) | Delivered(sent: seq<OutboundEmail>)

  /** The messages handed to `sendMail` before the block ended. */
  function Sent(o: Outcome): seq<OutboundEmail> {
    if o.Invalid? then [] else o.sent
  }

  /** The shared block as a function of the body and the transport's behaviour. */
  function Attempt(body: Value, setup: Setup): Outcome {
    match Destructure(body)
    case None => Failed([])
    case Some(f) =>
      if !HasRequired(f) then Invalid
      else if !setup.transporterCreated then Failed([])
      else if !Composes(f, setup.operator) then Failed([])
      else
        var d := SendBoth(setup.script, Notification(f, setup.operator), AutoReply(f, setup.operator));
        if d.completed then Delivered(d.attempted) else Failed(d.attempted)
  }

  /** The shared block run step by step against a transporter that records its sends. */
  method Run(body: Value, setup: Setup) returns (outcome: Outcome)
    ensures outcome == Attempt(body, setup)
  {
    var fields := Destructure(body);
    if fields.None? {
      return Failed([]);
    }
    var f := fields.value;
    if !HasRequired(f) {
      return Invalid;
    }
    if !setup.transporterCreated {
      return Failed([]);
    }
    var transporter := new Transporter(setup.script);
    if !Composes(f, setup.operator) {
      return Failed([]);
    }
    var mailOptions := Notification(f, setup.operator);
    var autoReply := AutoReply(f, setup.operator);
    var threw := transporter.SendMail(mailOptions);
    if threw {
      return Failed(transporter.sent);
    }
    threw := transporter.SendMail(autoReply);
    if threw {
      return Failed(transporter.sent);
    }
    return Delivered(transporter.sent);
  }

  /** The early 400-style return happens exactly when destructuring succeeds and a required field is falsy. */
  lemma InvalidIff(body: Value, setup: Setup)
    ensures Attempt(body, setup).Invalid?
        <==> Destructure(body).Some? && !HasRequired(Destructure(body).value)
  {
  }

  /**
   * Nothing is handed to `sendMail` unless the body destructures, passes
   * validation, the transporter is created and both messages are built.
   */
  lemma NoSendUnlessReady(body: Value, setup: Setup)
    ensures Sent(Attempt(body, setup)) != [] ==>
              && Destructure(body).Some?
              && HasRequired(Destructure(body).value)
              && setup.transporterCreated
              && Composes(Destructure(body).value, setup.operator)
  {
  }

  /**
   * Once everything before the sends has succeeded: the notification is sent
   * first; a throw from it ends the block with only the notification
   * attempted; a throw from the auto-reply ends it as a failure although the
   * notification was already sent; only two returning sends deliver.
   */
  lemma SendPhase(body: Value, setup: Setup, f: Fields)
    requires Destructure(body) == Some(f) && HasRequired(f)
    requires setup.transporterCreated && Composes(f, setup.operator)
    ensures var n, a := Notification(f, setup.operator), AutoReply(f, setup.operator);
      && (OutcomeAt(setup.script, 0) == Throws ==> Attempt(body, setup) == Failed([n]))
      && (OutcomeAt(setup.script, 0) == Returns && OutcomeAt(setup.script, 1) == Throws ==>
            Attempt(body, setup) == Failed([n, a]))
      && (OutcomeAt(setup.script, 0) == Returns && OutcomeAt(setup.script, 1) == Returns ==>
            Attempt(body, setup) == Delivered([n, a]))
  {
    SendOrder(setup.script, Notification(f, setup.operator), AutoReply(f, setup.operator));
  }

  /** The block delivers exactly when every step succeeds, and then both messages went out, notification first. */
  lemma DeliveredIff(body: Value, setup: Setup)
    ensures Attempt(body, setup).Delivered?
        <==> && Destructure(body).Some?
             && HasRequired(Destructure(body).value)
             && setup.transporterCreated
             && Composes(Destructure(body).value, setup.operator)
             && OutcomeAt(setup.script, 0) == Returns
             && OutcomeAt(setup.script, 1) == Returns
    ensures Attempt(body, setup).Delivered? ==>
              Attempt(body, setup).sent
              == [Notification(Destructure(body).value, setup.operator),
                  AutoReply(Destructure(body).value, setup.operator)]
  {
  }

  /**
   * Whatever happens, at most the two messages are attempted, in order, and
   * the first of them goes to the operator address.
   */
  lemma SentIsPrefix(body: Value, setup: Setup)
    ensures var s := Sent(Attempt(body, setup));
      |s| <= 2
      && (|s| >= 1 ==> s[0].to == setup.operator && s[0].from == setup.operator)
      && (|s| == 2 ==> s[1].to == Destructure(body).value.email)
  {
    if Sent(Attempt(body, setup)) != [] {
      var f := Destructure(body).value;
      NotificationAddressing(f, setup.operator);
      AutoReplyContent(f, setup.operator);
    }
  }
}
