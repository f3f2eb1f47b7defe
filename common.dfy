/** Values shared by every service: optional values, results, the HTTP
    exception classes the services throw, and JavaScript truthiness. */
module Common {

  datatype Option<+T> = None | Some(value: T)
  {
    function GetOr(default: T): T
    {
      if Some? then value else default
    }
  }

  /** A service call either returns a value or throws an error. */
  datatype Result<+T, +E> = Ok(value: T) | Err(error: E)

  /** The exception classes a failed call surfaces as. */
  datatype HttpException = BadRequest | NotFound | Forbidden | InternalServerError

  /** `if (id)` on an optional number: `undefined` and `0` are falsy. */
  predicate IsTruthyId(id: Option<nat>)
  {
    id.Some? && id.value != 0
  }

  /** `if (s)` on an optional string: `undefined` and `""` are falsy. */
  predicate IsTruthyString(s: Option<string>)
  {
    s.Some? && s.value != ""
  }
}
