/** Optional values: a JSON field that may be absent, a React state that may be null. */
module Wrappers {

  datatype Option<+T> = None | Some(value: T) {

    /** The value, or `default` when absent (JavaScript's `x ?? default`). */
    function GetOr(default: T): T {
      match this
      case Some(v) => v
      case None => default
    }
  }
}

/** The few JavaScript value rules the portal's code relies on. */
module Js {
  import opened Wrappers

  /** A dynamically typed value, as far as the handlers and hooks look at it. */
  datatype Value = Undefined | Null | Bool(b: bool) | Int(i: int) | Str(s: string) | Obj(ref: nat)

  /** JavaScript truthiness: `false`, `0`, `""`, `null` and `undefined` are falsy. */
  predicate Truthy(v: Value) {
    match v
    case Undefined => false
    case Null => false
    case Bool(b) => b
    case Int(i) => i != 0
    case Str(s) => s != ""
    case Obj(_) => true
  }

  /** Truthiness of an optional string field of a request body (`!body.customerId`). */
  predicate Present(o: Option<string>) {
    o.Some? && o.value != ""
  }

  /** `a || b` on an optional string: the field when truthy, otherwise the fallback. */
  function OrElse(o: Option<string>, fallback: string): (r: string)
    ensures Present(o) ==> r == o.value
    ensures !Present(o) ==> r == fallback
  {
    if Present(o) then o.value else fallback
  }
}

/** A handler's reply: an HTTP status and a body. */
module Http {

  const OK := 200
  const CREATED := 201
  const BAD_REQUEST := 400
  const NOT_FOUND := 404
  const CONFLICT := 409
  const SERVER_ERROR := 500

  datatype Response<B> = Response(status: int, body: B)
}
