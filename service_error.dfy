/** service/error.go: the error value every service operation returns, the
    sentinel errors, and the two constructors. */
module ServiceError {
  import opened Prelude

  const StatusBadRequest: int := 400
  const StatusUnauthorized: int := 401
  const StatusForbidden: int := 403
  const StatusNotFound: int := 404
  const StatusInternalServerError: int := 500

  /** One HTTP status code paired with one error. */
  datatype CustomErr = CustomErr(code: int, err: Error)

  /** Go's zero value `CustomErr{}`: what an operation returns when it succeeds. */
  const NoErr: CustomErr := CustomErr(0, Nil)

  const ErrDuplicatePhoneNumber: CustomErr := CustomErr(StatusBadRequest, Msg("duplicate phone number"))
  const ErrNotFoundUser: CustomErr := CustomErr(StatusNotFound, Msg("not found user"))
  const ErrWrongPassword: CustomErr := CustomErr(StatusBadRequest, Msg("wrong password"))
  const ErrNotFoundSession: CustomErr := CustomErr(StatusNotFound, Msg("not found session"))
  const ErrBlockedSession: CustomErr := CustomErr(StatusUnauthorized, Msg("blocked session"))
  const ErrIncorrectSessionUser: CustomErr := CustomErr(StatusUnauthorized, Msg("incorrect session user"))
  const ErrMismatchedSessionToken: CustomErr := CustomErr(StatusUnauthorized, Msg("mismatched session token"))
  const ErrExpiredSession: CustomErr := CustomErr(StatusUnauthorized, Msg("expired session"))

  const ErrParseDate: CustomErr := CustomErr(StatusBadRequest, Msg("invalid date format"))
  const ErrNotFoundProduct: CustomErr := CustomErr(StatusNotFound, Msg("not found product"))
  const ErrForbiddenProduct: CustomErr := CustomErr(StatusForbidden, Msg("only get your product"))
  const ErrDuplicateBarcode: CustomErr := CustomErr(StatusBadRequest, Msg("duplicate barcode"))

  const InternalServerErrorMessage: string := "internal server error"

  /** The cause is only logged; the caller sees a fixed 500 error. */
  function NewErrInternalServer(cause: Error): (e: CustomErr)
    ensures e.code == StatusInternalServerError
    ensures e.err == Msg(InternalServerErrorMessage)
  {
    CustomErr(StatusInternalServerError, Msg(InternalServerErrorMessage))
  }

  /** A 400 that carries the given error unchanged. */
  function NewErrBadRequest(err: Error): (e: CustomErr)
    ensures e.code == StatusBadRequest && e.err == err
  {
    CustomErr(StatusBadRequest, err)
  }
}
