/** Error responses of the route handlers and the error mapping the two admin
    routes share. */
module Http {
  import opened Wrappers
  import Auth

  /** A JSON error response: its status code and its `error` message. */
  datatype Rejection = Rejection(status: int, message: string)

  /** A handler's answer: a 200 JSON body or an error response. */
  type Response<T> = Result<T, Rejection>

  /** The `catch` block of the admin routes: the admin gate's "Forbidden" error becomes
      403 and every other error message (including the gate's "Unauthorized") the
      route's own 500 message. */
  function AdminRouteError(message: string, fallback: string): (r: Rejection)
    ensures r.status == 403 <==> message == Auth.ForbiddenMessage
    ensures r.status == 403 ==> r.message == "Forbidden"
    ensures r.status != 403 ==> r == Rejection(500, fallback)
  {
    if message == Auth.ForbiddenMessage then Rejection(403, "Forbidden")
    else Rejection(500, fallback)
  }
}
