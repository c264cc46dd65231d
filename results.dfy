/** The values an OnPreAuth interceptor hands back to the adapter: the three
    outcomes of the pre-authentication stage and the options they carry. */
module Results {

  /** An optional value: `None` stands for an option the caller left undefined. */
  datatype Option<+T> = None | Some(value: T) {
    function GetOr(default: T): T {
      match this
      case Some(v) => v
      case None => default
    }
  }

  /** The status code an HTTP error gets when none is specified. */
  const InternalServerError: int := 500

  /** A JavaScript `Error`, of which the adapter only uses the message. */
  datatype Error = Error(message: string)

  /** OnPreAuthResult. Each payload keeps the options exactly as the
      interceptor passed them, `None` where an option was left out. */
  datatype Outcome =
    | Next
    | Redirected(url: string, forward: Option<bool>)
    | Rejected(error: Error, statusCode: Option<int>)

  /** A redirection is served in place (the request is forwarded) only when
      its `forward` option is `true`; when it is left out or `false` the
      client is sent a redirect. */
  predicate Forwards(o: Outcome)
    requires o.Redirected?
  {
    o.forward == Some(true)
  }

  /** The status code a rejection is answered with: the one the interceptor
      gave, or 500 when it gave none. */
  function RejectionStatus(o: Outcome): (code: int)
    requires o.Rejected?
    ensures o.statusCode.Some? ==> code == o.statusCode.value
    ensures o.statusCode.None? ==> code == InternalServerError
  {
    o.statusCode.GetOr(InternalServerError)
  }
}
