/** The outcome-building toolkit handed to every OnPreAuth interceptor:
    `t.next()`, `t.redirected(url, {forward})`, `t.rejected(error, {statusCode})`. */
module Toolkit {
  import opened Results

  /** The options object of `redirected`; `forward` may be left out. */
  datatype RedirectOptions = RedirectOptions(forward: Option<bool>)

  /** The options object of `rejected`; `statusCode` may be left out. */
  datatype RejectOptions = RejectOptions(statusCode: Option<int>)

  /** `redirected(url)` and `rejected(error)` called without options. */
  const NoRedirectOptions := RedirectOptions(None)
  const NoRejectOptions := RejectOptions(None)

  /** Pass the request on to the next lifecycle stage. */
  function Next(): (o: Outcome)
    ensures o.Next?
  {
    Outcome.Next
  }

  /** Redirect the client to `url`, or forward the request to it in place
      when `options.forward` is `true`. */
  function Redirected(url: string, options: RedirectOptions): (o: Outcome)
    ensures o.Redirected? && o.url == url
    ensures Forwards(o) <==> options.forward == Some(true)
  {
    Outcome.Redirected(url, options.forward)
  }

  /** Reject the request with `error`, answered with `options.statusCode`
      or, when that is left out, with 500. */
  function Rejected(error: Error, options: RejectOptions): (o: Outcome)
    ensures o.Rejected? && o.error == error
    ensures RejectionStatus(o) == if options.statusCode.Some? then options.statusCode.value else 500
  {
    Outcome.Rejected(error, options.statusCode)
  }
}
