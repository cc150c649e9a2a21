/**
 * Errors of the calls to the Satori console (src/helpers/satori_console/errors.rs).
 * A `reqwest::Error` is reduced to the HTTP status it may carry.
 */
module ConsoleErrors {
  import opened Wrappers

  const UNAUTHORIZED: nat := 401
  const FORBIDDEN: nat := 403
  const BAD_REQUEST: nat := 400
  const NOT_FOUND: nat := 404

  /** A transport error of the HTTP client, with the response status when there was one. */
  datatype ReqwestError = ReqwestError(status: Option<nat>)

  datatype SatoriError =
    | Reqwest(cause: ReqwestError)
    | Status(code: nat)
    | Json
    | SatoriClientError(cause: ReqwestError)
    | AuthorizationError(cause: ReqwestError)
    | ForbiddenError(cause: ReqwestError)
    | UserNotFound(cause: ReqwestError)

  /** `handle_reqwest_error`: the status of the error picks the variant; the error is kept. */
  function HandleReqwestError(err: ReqwestError): (r: SatoriError)
    ensures !r.Status? && !r.Json? && r.cause == err
    ensures r.AuthorizationError? <==> err.status == Some(UNAUTHORIZED)
    ensures r.ForbiddenError? <==> err.status == Some(FORBIDDEN)
    ensures r.SatoriClientError? <==> err.status == Some(BAD_REQUEST)
    ensures r.UserNotFound? <==> err.status == Some(NOT_FOUND)
    ensures r.Reqwest? <==> err.status !in {Some(UNAUTHORIZED), Some(FORBIDDEN), Some(BAD_REQUEST), Some(NOT_FOUND)}
  {
    match err.status
    case Some(401) => AuthorizationError(err)
    case Some(403) => ForbiddenError(err)
    case Some(400) => SatoriClientError(err)
    case Some(404) => UserNotFound(err)
    case _ => Reqwest(err)
  }
}
