/** The small optional-value wrapper used throughout the model. */
module Wrappers {

  datatype Option<+T> = None | Some(value: T)
}

/**
 * JavaScript values as the handlers see them: whatever JSON parsing can
 * produce, plus `undefined` for a property that is not there.
 */
module JsValue {

  datatype Value =
    | Undefined
    | Null
    | Bool(b: bool)
    | Num(n: real)
    | Str(s: string)
    | Arr(items: seq<Value>)
    | Obj(props: map<string, Value>)

  /**
   * JavaScript truthiness, as used by `!name` and by `phone ? … : ''`:
   * `undefined`, `null`, `false`, `0` and the empty string are falsy, and
   * every other value, every array and every object included, is truthy.
   */
  predicate Truthy(v: Value) {
    match v
    case Undefined => false
    case Null => false
    case Bool(b) => b
    case Num(n) => n != 0.0
    case Str(s) => s != ""
    case Arr(_) => true
    case Obj(_) => true
  }

  /** Exactly five values are falsy. */
  lemma FalsyValues(v: Value)
    ensures !Truthy(v) <==> v in {Undefined, Null, Bool(false), Num(0.0), Str("")}
  {
  }

  /**
   * Whether a template substitution `${v}` completes. Converting a value to
   * a string goes through its `toString`; a JSON object has a callable one
   * from its prototype unless it carries an own (and so non-callable)
   * "toString" property, in which case the conversion throws a TypeError.
   * An array is converted by joining its elements, so it converts exactly
   * when each element does.
   */
  predicate Renderable(v: Value) {
    match v
    case Arr(items) => forall i :: 0 <= i < |items| ==> Renderable(items[i])
    case Obj(props) => "toString" !in props
    case _ => true
  }
}
