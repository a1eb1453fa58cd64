/**
 * Reading the submission out of the request body and the presence-only
 * validation that both handlers run on it.
 */
module Submission {
  import opened Wrappers
  import opened JsValue

  /** The five values bound by `const { name, email, phone, subject, message } = body`. */
  datatype Fields = Fields(name: Value, email: Value, phone: Value, subject: Value, message: Value)

  /** The keys whose values must be truthy; `phone` is not one of them. */
  const RequiredKeys: set<string> := {"name", "email", "subject", "message"}

  /**
   * `body.key` for a body that is neither `undefined` nor `null`: an own
   * property of an object, and `undefined` for every other value (no
   * prototype of a JSON value defines any of the five keys read here).
   */
  function Read(body: Value, key: string): Value
    requires !body.Undefined? && !body.Null?
  {
    if body.Obj? && key in body.props then body.props[key] else Undefined
  }

  /**
   * The destructuring assignment; None when it throws, which JavaScript
   * does (with a TypeError) exactly when the body is `undefined` or `null`.
   */
  function Destructure(body: Value): Option<Fields> {
    if body.Undefined? || body.Null? then None
    else Some(Fields(Read(body, "name"), Read(body, "email"), Read(body, "phone"),
                     Read(body, "subject"), Read(body, "message")))
  }

  /** The validation guard `!name || !email || !subject || !message` does not fire. */
  predicate HasRequired(f: Fields) {
    Truthy(f.name) && Truthy(f.email) && Truthy(f.subject) && Truthy(f.message)
  }

  /** Destructuring throws on exactly the two nullish bodies. */
  lemma DestructureThrows(body: Value)
    ensures Destructure(body).None? <==> body == Undefined || body == Null
  {
  }

  /**
   * For an object body, validation passes exactly when each required key is
   * present with a truthy value; `phone` plays no part.
   */
  lemma ObjectValidation(props: map<string, Value>)
    ensures Destructure(Obj(props)).Some?
    ensures HasRequired(Destructure(Obj(props)).value)
        <==> forall k :: k in RequiredKeys ==> k in props && Truthy(props[k])
  {
    var f := Destructure(Obj(props)).value;
    if HasRequired(f) {
      forall k | k in RequiredKeys ensures k in props && Truthy(props[k]) {
        assert k == "name" || k == "email" || k == "subject" || k == "message";
      }
    }
  }

  /**
   * A body that is a boolean, number, string or array has none of the keys:
   * destructuring binds `undefined` to all five and validation rejects it.
   */
  lemma NonObjectRejected(body: Value)
    requires body.Bool? || body.Num? || body.Str? || body.Arr?
    ensures Destructure(body) == Some(Fields(Undefined, Undefined, Undefined, Undefined, Undefined))
    ensures !HasRequired(Destructure(body).value)
  {
  }

  /** Validation never looks at `phone`. */
  lemma PhoneNotChecked(f: Fields, phone: Value)
    ensures HasRequired(f.(phone := phone)) == HasRequired(f)
  {
  }
}
