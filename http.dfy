/** What the handlers share: the status codes they answer with, the `dtos.Response`
    envelope they write with `ctx.JSON`, query-string defaulting, and the caller's
    identity that the authentication middleware leaves in the request context
    (`utils.GetUserFromContext`). */
module Http {
  import opened Wrappers
  import opened Models

  const StatusOK: int := 200
  const StatusCreated: int := 201
  const StatusBadRequest: int := 400
  const StatusUnauthorized: int := 401
  const StatusNotFound: int := 404
  const StatusConflict: int := 409
  const StatusInternalServerError: int := 500

  /** The `dtos.Response` envelope: code, success flag, message and data. */
  datatype Response<D> = Response(code: int, success: bool, message: string, data: Option<D>)

  function Failure<D>(code: int, message: string): Response<D>
  {
    Response(code, false, message, None)
  }

  function Success<D>(code: int, message: string, data: Option<D>): Response<D>
  {
    Response(code, true, message, data)
  }

  /** `ctx.DefaultQuery(name, def)`: the parameter when it is in the query string (even
      when empty), the default otherwise. */
  function DefaultQuery(param: Option<string>, def: string): string
  {
    if param.Some? then param.value else def
  }

  /** The context entry "claims": absent (no token), something other than the claims
      type, or the caller's claims. */
  datatype ClaimsSlot = NoClaims | ForeignValue | Claims(userId: Uuid, role: string)

  /** The caller as `GetUserFromContext` returns it. */
  datatype Caller = Caller(userId: Uuid, role: string)

  /** `utils.GetUserFromContext`: the caller, or an error when the claims are missing or of
      the wrong type. */
  function GetUserFromContext(slot: ClaimsSlot): (r: Result<Caller>)
    ensures r.Ok? <==> slot.Claims?
    ensures r.Ok? ==> r.value == Caller(slot.userId, slot.role)
  {
    match slot
    case NoClaims => Err("claims not found in context - token might be missing")
    case ForeignValue => Err("invalid claims format")
    case Claims(id, role) => Ok(Caller(id, role))
  }
}
