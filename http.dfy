/** What the handlers of cmd/api hand to the HTTP layer: a status and either
    no data, a data object, or the error given to one of the error
    responders (whose JSON envelope is not part of this model). Also the
    decoded request payload and the trace of calls a handler makes. */
module Http {
  import opened Sql
  import opened StoreErrors
  import Strconv
  import Claims

  const StatusOK: int := 200
  const StatusBadRequest: int := 400
  const StatusUnauthorized: int := 401
  const StatusInternalServerError: int := 500

  /** The error value a handler passes to an error responder. */
  datatype Cause =
    | Nil                                  // a nil error
    | DecodeError                          // from readJSON
    | ValidationError                      // from Validate.Struct
    | ParseError(numError: Strconv.NumError) // from strconv.ParseInt
    | StoreFailure(storeError: StoreError) // as a store returned it
    | HashFailure(message: string)         // from the password hasher
    | SigningFailure(message: string)      // from token generation
    | Plain(message: string)               // fmt.Errorf with nothing wrapped
    | Wrapped(context: string, inner: Cause) // fmt.Errorf("<context>: %w", inner)

  datatype Body = NoData | ErrorBody(cause: Cause) | Fields(data: map<string, string>)

  datatype Response = Response(status: int, body: Body)

  /** badRequestResponse */
  function BadRequest(c: Cause): Response { Response(StatusBadRequest, ErrorBody(c)) }

  /** unauthorizedErrorResponse */
  function Unauthorized(c: Cause): Response { Response(StatusUnauthorized, ErrorBody(c)) }

  /** internalServerError */
  function InternalError(c: Cause): Response { Response(StatusInternalServerError, ErrorBody(c)) }

  /** jsonResponse(w, http.StatusOK, nil) */
  const OkNoData: Response := Response(StatusOK, NoData)

  /** readJSON's outcome: the payload as far as it was decoded, and whether
      decoding succeeded. */
  datatype Decoded<T> = Decoded(payload: T, ok: bool)

  /** A call a handler makes outside itself. */
  datatype Effect =
    | Hashed(plain: string)                 // the password hasher
    | Executed(statement: Statement)        // a statement sent to the database
    | Verified(plain: string)               // the password comparison
    | Signed(claims: Claims.ClaimSet)       // token generation
}
