/**
 * The JavaScript values a route handler reads from a JSON request body, and
 * the built-ins (Mongoose's ObjectId check, `Number()`, `new Date()`) that the
 * handlers call on them. The built-ins are not reimplemented: a `Runtime`
 * bundles them as abstract total functions, and every result about the routes
 * holds for every choice of them.
 */
module Js {
  import opened Wrappers

  /**
   * A property of `req.body`. A property the body does not have reads as
   * `Undefined`. JSON numbers are finite, so `Num` carries a real; an array
   * carries its elements and an object its properties in order, so the
   * built-ins below can tell any two of them apart.
   */
  datatype JsValue =
    | Undefined
    | Null
    | Bool(b: bool)
    | Num(n: real)
    | Str(s: string)
    | Arr(items: seq<JsValue>)
    | Obj(properties: seq<(string, JsValue)>)

  /** JavaScript truthiness: `!v` is `!Truthy(v)`. */
  predicate Truthy(v: JsValue) {
    match v
    case Undefined => false
    case Null => false
    case Bool(b) => b
    case Num(n) => n != 0.0
    case Str(s) => s != []
    case Arr(_) => true
    case Obj(_) => true
  }

  /** The test `!v || typeof v !== 'string'` fails exactly on the non-empty strings. */
  predicate MissingOrNotString(v: JsValue)
    ensures MissingOrNotString(v) <==> !(v.Str? && v.s != [])
  {
    !Truthy(v) || !v.Str?
  }

  /** A document identifier, in the store's canonical form. */
  type Id = string

  /**
   * The built-ins the routes rely on:
   * - `objectId(v)` is `None` when `mongoose.Types.ObjectId.isValid(v)` is
   *   false, and otherwise the identifier the store casts `v` to;
   * - `toNumber(v)` is `Number(v)`, with `None` for `NaN`;
   * - `toDate(v)` is the time value of `new Date(v)` in milliseconds, with
   *   `None` for an Invalid Date.
   */
  datatype Runtime = Runtime(
    objectId: JsValue -> Option<Id>,
    toNumber: JsValue -> Option<real>,
    toDate: JsValue -> Option<int>)
}
