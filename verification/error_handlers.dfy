/** The application's error handlers: the catch-all for unmatched routes and
    the three error-handling middlewares that turn a forwarded error into a
    response. */
module ErrorHandlers {
  import opened JsValues
  import opened Express

  const InvalidPathMessage := "invalid path"
  const BadRequestMessage := "bad request"
  const ServerErrorMessage := "server error"

  /** SQLSTATE codes the Postgres handler names: invalid text representation
      and foreign-key violation. */
  const InvalidTextRepresentation := "22P02"
  const ForeignKeyViolation := "23503"

  /** The handler for any route nothing else matched. It ignores the request. */
  function BadPathController(request: Request): (r: Response)
    ensures r.status == Int(404)
    ensures r.body == Json(Envelope("message", Str(InvalidPathMessage)))
  {
    MessageResponse(Int(404), Str(InvalidPathMessage))
  }

  /** A domain rejection: an error with a truthy `message` and a truthy `status`. */
  predicate IsDomainRejection(e: ErrorValue) {
    Truthy(e.message) && Truthy(e.status)
  }

  /** A domain rejection `{ status, message }` is answered verbatim; an error
      lacking a truthy `message` or a truthy `status` is deferred. */
  function CustomErrorController(e: ErrorValue): (r: Option<Response>)
    ensures r.Some? <==> Truthy(e.message) && Truthy(e.status)
    ensures r.Some? ==> r.value.status == e.status && r.value.body == Json(Envelope("message", e.message))
  {
    if IsDomainRejection(e) then Some(MessageResponse(e.status, e.message))
    else None
  }

  /** The test the Postgres handler performs, as written:
      `err.code === '22P02' || '23503'`. The right operand of `||` is a
      non-empty string literal, not a comparison. */
  function PsqlCondition(e: ErrorValue): (v: Value)
    ensures Truthy(v)
    ensures e.code != Str(InvalidTextRepresentation) ==> v == Str(ForeignKeyViolation)
  {
    Or(Bool(StrictEquals(e.code, Str(InvalidTextRepresentation))), Str(ForeignKeyViolation))
  }

  /** The Postgres handler as written: since its condition is always truthy,
      it answers every error it sees with 400 "bad request". */
  function PsqlErrorController(e: ErrorValue): (r: Option<Response>)
    ensures r == Some(MessageResponse(Int(400), Str(BadRequestMessage)))
  {
    if Truthy(PsqlCondition(e)) then Some(MessageResponse(Int(400), Str(BadRequestMessage)))
    else None
  }

  /** The Postgres handler as evidently intended: only the two named SQLSTATE
      codes become 400 "bad request"; every other error is deferred. */
  function PsqlErrorIntended(e: ErrorValue): (r: Option<Response>)
    ensures r.Some? <==> e.code == Str(InvalidTextRepresentation) || e.code == Str(ForeignKeyViolation)
    ensures r.Some? ==> r.value == MessageResponse(Int(400), Str(BadRequestMessage))
  {
    if StrictEquals(e.code, Str(InvalidTextRepresentation)) || StrictEquals(e.code, Str(ForeignKeyViolation)) then
      Some(MessageResponse(Int(400), Str(BadRequestMessage)))
    else None
  }

  /** The last-resort handler: 500 with a fixed message, whatever the error says. */
  function ServerErrorController(e: ErrorValue): (r: Option<Response>)
    ensures r.Some?
    ensures r.value.status == Int(500)
    ensures r.value.body == Json(Envelope("message", Str(ServerErrorMessage)))
  {
    Some(MessageResponse(Int(500), Str(ServerErrorMessage)))
  }
}
