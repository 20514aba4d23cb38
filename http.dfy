/** The HTTP side of the route handlers: the request validators they
    declare (each field is checked in declaration order and every failing
    field is reported) and the replies they send. */
module Http {
  import opened Wrappers
  import opened Text

  /** One entry of `errors.array()`: the field and its message. */
  datatype FieldError = FieldError(path: string, msg: string)

  /** express-validator's message for a validator declared without one. */
  const InvalidValue := "Invalid value"

  /** The reply of a handler: a success with its status code and body, or
      one of the error replies. */
  datatype Reply<T> =
    | Success(code: int, body: T)
    | BadRequest(errors: seq<FieldError>)
    | NotFound(message: string)
    | ServerError(message: string)

  /** The value a `.trim()` sanitiser leaves in the body: a missing field
      reads as the empty string. */
  function Trimmed(v: Option<string>): string {
    Trim(v.GetOr(""))
  }

  /** `body(path).trim().isLength({ min }).withMessage(msg)`: the error,
      if the trimmed value is shorter than `min`. */
  function MinLengthError(path: string, v: Option<string>, min: nat, msg: string): (e: seq<FieldError>)
    ensures e == [] <==> |Trimmed(v)| >= min
    ensures e != [] ==> e == [FieldError(path, msg)]
  {
    if |Trimmed(v)| < min then [FieldError(path, msg)] else []
  }

  /** `body(path).optional().isIn(names)`: a missing field passes, a
      present one must be one of `names` (the empty string is present). */
  function OptionalIsInError(path: string, v: Option<string>, isIn: string -> bool, msg: string): (e: seq<FieldError>)
    ensures e == [] <==> v.None? || isIn(v.value)
    ensures e != [] ==> e == [FieldError(path, msg)]
  {
    if v.Some? && !isIn(v.value) then [FieldError(path, msg)] else []
  }

  /** `body(path).isIn(names)`: the field must be present and one of `names`. */
  function IsInError(path: string, v: Option<string>, isIn: string -> bool, msg: string): (e: seq<FieldError>)
    ensures e == [] <==> v.Some? && isIn(v.value)
    ensures e != [] ==> e == [FieldError(path, msg)]
  {
    if v.None? || !isIn(v.value) then [FieldError(path, msg)] else []
  }

  /** A query-string filter is applied only when it is given and not
      empty. */
  predicate Given(v: Option<string>) {
    v.Some? && v.value != ""
  }
}
