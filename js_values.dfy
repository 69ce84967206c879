/**
 * The slice of JavaScript's value model that the chat client relies on.
 *
 * A plain object is a reference (`JsObject`) whose own properties can be
 * added, overwritten and deleted in place; everything else the client reads
 * from a message is a string, `null`, or `undefined` (the result of reading a
 * property that is not there).
 */
module JsValues {

  datatype Option<+T> = None | Some(value: T)

  /** A JavaScript value as far as the client inspects it. */
  datatype Value =
    | Undefined
    | Null
    | Str(s: string)
    | Obj(o: JsObject)

  /** A JavaScript object used as a dictionary: its own enumerable properties. */
  class JsObject {
    var props: map<string, Value>

    constructor (init: map<string, Value>)
      ensures props == init
    {
      props := init;
    }
  }

  /** The own properties of an object, taken as a value (objects the client never mutates). */
  type Record = map<string, Value>

  /** `r.key`: the property's value, or `undefined` when it is absent. */
  function Get(r: Record, key: string): Value
  {
    if key in r then r[key] else Undefined
  }

  /** JavaScript truthiness, restricted to the values above. */
  predicate Truthy(v: Value)
  {
    match v
    case Undefined => false
    case Null => false
    case Str(s) => s != ""
    case Obj(_) => true
  }
}
