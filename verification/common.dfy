/** Values shared by every part of the model: optional request fields,
    JavaScript truthiness of those fields, and the outcome of a middleware. */
module Common {

  /** A request field that may be absent (`undefined` in the request body). */
  datatype Option<+T> = None | Some(value: T) {
    /** The value, or `default` when absent (a schema default). */
    function GetOr(default: T): T {
      if Some? then value else default
    }
  }

  /** JavaScript truthiness of an optional string: `undefined` and `""` are falsy. */
  predicate Truthy(s: Option<string>) {
    s.Some? && s.value != ""
  }

  /** JavaScript truthiness of an optional number: `undefined` and `0` are falsy
      (NaN is not modelled). */
  predicate TruthyNum(x: Option<real>) {
    x.Some? && x.value != 0.0
  }

  /** What an Express middleware does with a request: answer it with a status
      code, or hand it on with `next()`. */
  datatype Outcome = Respond(status: int) | Next
}
