/** internal/platform/web/errors.go, together with the two error packages the
    service relies on: Go's `errors` (values compared by identity) and
    github.com/pkg/errors (`Wrap` and `Cause`). */
module WebErrors {
  import opened JsonValues

  /** FieldError maps a request field name to its validation message; a map
      holds exactly one message per field. */
  type FieldError = map<string, string>

  /** The package-level error variables the service compares against. Go compares
      them by identity, so each is its own value here. */
  datatype ErrVar =
    | ProductNotFound           // product.ErrNotFound
    | ProductInvalidId          // product.ErrInvalidId
    | ProductForbidden          // product.ErrForbidden
    | UserAuthenticationFailure // user.ErrAuthenticationFailure
    | WebContextValueMissing    // web.ErrContextValueMissing
    | SqlNoRows                 // sql.ErrNoRows

  /** An `error` value of the program.
      - Plain: a fresh error from errors.New / errors.Errorf or a foreign library;
        it is never compared by identity, so its message is all it carries.
      - Sentinel: one of the package-level variables above.
      - WebError: a `*web.Error` (an error plus an HTTP status and field messages).
      - Wrapped: pkg/errors `Wrap(inner, msg)` / `Wrapf`. */
  datatype Err =
    | Plain(msg: string)
    | Sentinel(v: ErrVar)
    | WebError(err: Err, status: int, fields: FieldError)
    | Wrapped(msg: string, inner: Err)

  /** The text of each error variable. The declarations of the three product
      variables are not part of this model; their text is the variable's name. */
  function VarText(v: ErrVar): string
  {
    match v
    case ProductNotFound => "product.ErrNotFound"
    case ProductInvalidId => "product.ErrInvalidId"
    case ProductForbidden => "product.ErrForbidden"
    case UserAuthenticationFailure => "Authentication failed"
    case WebContextValueMissing => "web values missing from context"
    case SqlNoRows => "sql: no rows in result set"
  }

  const ErrContextValueMissing: Err := Sentinel(WebContextValueMissing)
  const ErrAuthenticationFailure: Err := Sentinel(UserAuthenticationFailure)

  /** `err.Error()`: a `*web.Error` reports the message of the error it carries;
      pkg/errors prefixes the wrapping message and ": ". */
  function Message(e: Err): string
  {
    match e
    case Plain(m) => m
    case Sentinel(v) => VarText(v)
    case WebError(inner, _, _) => Message(inner)
    case Wrapped(m, inner) => m + ": " + Message(inner)
  }

  /** `(*Error).Error()` returns the carried error's message unchanged, whatever
      the status and field messages. */
  lemma WebErrorMessage(e: Err, status: int, fields: FieldError)
    ensures Message(WebError(e, status, fields)) == Message(e)
  {
  }

  /** pkg/errors `Cause`: strips every layer added by Wrap and stops at the first
      error that has no cause. A `*web.Error` has no `Cause` method, so it is
      where unwrapping stops. */
  function Cause(e: Err): (c: Err)
    ensures !c.Wrapped?
    ensures e.WebError? || e.Plain? || e.Sentinel? ==> c == e
    ensures c < e || c == e
  {
    match e
    case Wrapped(_, inner) => Cause(inner)
    case _ => e
  }

  /** Wrapping any number of times never changes the cause. */
  lemma CauseOfWrap(m: string, e: Err)
    ensures Cause(Wrapped(m, e)) == Cause(e)
  {
  }

  /** NewRequestError: a known error condition with an HTTP status. */
  function NewRequestError(err: Err, status: int): (r: Err)
    ensures r.WebError? && r.err == err && r.status == status
    ensures r.fields == map[]
    ensures Message(r) == Message(err)
    ensures Cause(r) == r
  {
    WebError(err, status, map[])
  }

  /** ErrorResponse: how the service answers a client when something goes wrong.
      The `fields` member is `omitempty`: it is written only when the map is not empty. */
  datatype ErrorResponse = ErrorResponse(error: string, fields: FieldError) {

    function ToJson(): (j: Json)
      ensures j.JObj?
      ensures "error" in j.members && j.members["error"] == JStr(error)
      ensures "fields" in j.members <==> |fields| > 0
      ensures "fields" in j.members ==>
        j.members["fields"].JObj? &&
        j.members["fields"].members.Keys == fields.Keys &&
        forall k :: k in fields ==> j.members["fields"].members[k] == JStr(fields[k])
      ensures j.members.Keys <= {"error", "fields"}
    {
      var base := map["error" := JStr(error)];
      if |fields| == 0 then JObj(base)
      else JObj(base["fields" := JObj(map k | k in fields :: JStr(fields[k]))])
    }
  }
}
