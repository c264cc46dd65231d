/** adoptToHapiOnPreAuthFormat: runs a platform OnPreAuth interceptor inside
    the HTTP engine's pre-auth hook and turns whatever it produced into
    exactly one engine directive. */
module PreAuth {
  import opened Results
  import Toolkit
  import Messages

  /** What calling the interceptor gives the adapter. */
  datatype InterceptorResult =
    | Returned(outcome: Outcome)  // an OnPreAuthResult built with the toolkit
    | Threw(error: Error)         // the call threw, or its promise rejected
    | Other(shown: string)        // any other value, by its string form

  /** The platform's view of the request handed to the interceptor. */
  datatype RequestView = RequestView(url: string)

  /** A Boom error: the message and the HTTP status code of the response. */
  datatype HttpError = HttpError(message: string, statusCode: int)

  /** An opaque engine signal (`h.continue`, the result of `takeover()`);
      only its identity matters. */
  class Symbol {
    constructor () {}
  }

  /** What the hook returns to the engine: one of its signals, or an error
      that the engine answers the request with. */
  datatype HandlerResult = Signal(token: Symbol) | Failure(error: HttpError)

  /** The one action the adapter takes for an interceptor result. */
  datatype Directive =
    | Continue              // return `h.continue`
    | Redirect(url: string) // return `h.redirect(url).takeover()`
    | Forward(url: string)  // rewrite the request's URL, then return `h.continue`
    | Fail(error: HttpError) // return the error

  /** The translation the adapter performs. Thrown errors and values that
      are not outcomes are folded into a 500 error; nothing is let through
      as an exception. */
  function Plan(res: InterceptorResult): (d: Directive)
    ensures d.Continue? <==> res == Returned(Next)
    ensures d.Redirect? <==> res.Returned? && res.outcome.Redirected? && !Forwards(res.outcome)
    ensures d.Forward? <==> res.Returned? && res.outcome.Redirected? && Forwards(res.outcome)
    ensures d.Redirect? || d.Forward? ==> d.url == res.outcome.url
    ensures d.Fail? <==> !res.Returned? || res.outcome.Rejected?
    ensures d.Fail? && !res.Returned? ==> d.error.statusCode == InternalServerError
  {
    match res
    case Threw(e) => Fail(HttpError(e.message, InternalServerError))
    case Other(shown) => Fail(HttpError(Messages.UnexpectedResultMessage(shown), InternalServerError))
    case Returned(o) =>
      match o
      case Next => Continue
      case Redirected(url, _) => if Forwards(o) then Forward(url) else Redirect(url)
      case Rejected(e, _) => Fail(HttpError(e.message, RejectionStatus(o)))
  }

  /** `t.redirected(url, options)` is served as a client redirect to `url`,
      or as a forward to `url` when `forward` is `true`. */
  lemma RedirectedPlan(url: string, options: Toolkit.RedirectOptions)
    ensures Plan(Returned(Toolkit.Redirected(url, options))) ==
      if options.forward == Some(true) then Forward(url) else Redirect(url)
  {
  }

  /** `t.rejected(error, options)` gives an error with the error's message
      and the given status code, 500 when none is given. */
  lemma RejectedPlan(error: Error, options: Toolkit.RejectOptions)
    ensures Plan(Returned(Toolkit.Rejected(error, options))) ==
      Fail(HttpError(error.message, options.statusCode.GetOr(500)))
  {
  }

  /** An interceptor that throws gives an error with the thrown message and
      status code 500. */
  lemma ThrowPlan(error: Error)
    ensures Plan(Threw(error)) == Fail(HttpError(error.message, 500))
  {
  }

  /** An interceptor that returns something else gives a 500 error whose
      message names exactly that value. */
  lemma UnexpectedResultPlan(shown: string)
    ensures Plan(Other(shown)).Fail?
    ensures Plan(Other(shown)).error.statusCode == 500
    ensures Messages.ShownValue(Plan(Other(shown)).error.message) == Some(shown)
  {
  }

  /** The transport-level request (`request.raw.req`), whose `url` field the
      adapter writes directly. It may have no `url` at all. */
  class RawRequest {
    var url: Option<string>

    constructor (url: Option<string>)
      ensures this.url == url
    {
      this.url := url;
    }
  }

  /** The engine's request: its effective URL, changed through `setUrl`, and
      its raw transport handle. `setUrlCalls` records every `setUrl`. */
  class Request {
    var url: string
    const raw: RawRequest
    ghost var setUrlCalls: seq<string>

    constructor (url: string, raw: RawRequest)
      ensures this.url == url && this.raw == raw && setUrlCalls == []
    {
      this.url := url;
      this.raw := raw;
      setUrlCalls := [];
    }

    function View(): RequestView
      reads this
    {
      RequestView(url)
    }

    /** `request.setUrl(url)`: only the effective URL changes; the raw
        transport handle keeps its own `url`. */
    method SetUrl(url: string)
      modifies this
      ensures this.url == url
      ensures setUrlCalls == old(setUrlCalls) + [url]
    {
      this.url := url;
      setUrlCalls := setUrlCalls + [url];
    }
  }

  /** The response object `h.redirect(url)` builds; `takeover()` marks it
      final and gives the signal the hook returns. */
  datatype RedirectResponse = RedirectResponse(location: string, takeoverToken: Symbol) {
    function Takeover(): Symbol {
      takeoverToken
    }
  }

  /** The engine's response toolkit `h`: the `continue` signal, and
      `redirect`, whose response's `takeover()` gives `takeoverToken`.
      `redirectCalls` records the URL of every `redirect` call. */
  class ResponseToolkit {
    const continueToken: Symbol
    const takeoverToken: Symbol
    ghost var redirectCalls: seq<string>

    constructor (continueToken: Symbol, takeoverToken: Symbol)
      ensures this.continueToken == continueToken && this.takeoverToken == takeoverToken
      ensures redirectCalls == []
    {
      this.continueToken := continueToken;
      this.takeoverToken := takeoverToken;
      redirectCalls := [];
    }

    method Redirect(url: string) returns (response: RedirectResponse)
      modifies this
      ensures redirectCalls == old(redirectCalls) + [url]
      ensures response.location == url && response.Takeover() == takeoverToken
    {
      redirectCalls := redirectCalls + [url];
      response := RedirectResponse(url, takeoverToken);
    }
  }

  /** The hook `adoptToHapiOnPreAuthFormat(interceptor)` installs, called by
      the engine with `request` and `h`. It calls the interceptor once and
      carries out Plan of its result: it returns `h.continue` itself for
      `next()`; for a redirect it calls `redirect` once with the URL and
      returns the takeover signal; for a forward it rewrites both the
      effective and the raw URL, never calls `redirect`, and returns
      `h.continue`; for a rejection or a fault it returns the error and
      changes nothing. */
  method InterceptPreAuthRequest(interceptor: RequestView -> InterceptorResult, request: Request, h: ResponseToolkit)
    returns (r: HandlerResult)
    modifies request, request.raw, h
    ensures var d := Plan(interceptor(old(request.View())));
      r == match d
           case Continue => Signal(h.continueToken)
           case Redirect(_) => Signal(h.takeoverToken)
           case Forward(_) => Signal(h.continueToken)
           case Fail(e) => Failure(e)
    ensures var d := Plan(interceptor(old(request.View())));
      h.redirectCalls == old(h.redirectCalls) + (if d.Redirect? then [d.url] else [])
    ensures var d := Plan(interceptor(old(request.View())));
      && request.setUrlCalls == old(request.setUrlCalls) + (if d.Forward? then [d.url] else [])
      && request.url == (if d.Forward? then d.url else old(request.url))
      && request.raw.url == (if d.Forward? then Some(d.url) else old(request.raw.url))
  {
    var result := interceptor(request.View());
    match Plan(result)
    case Continue =>
      r := Signal(h.continueToken);
    case Redirect(url) =>
      var response := h.Redirect(url);
      r := Signal(response.Takeover());
    case Forward(url) =>
      request.SetUrl(url);
      request.raw.url := Some(url);
      r := Signal(h.continueToken);
    case Fail(e) =>
      r := Failure(e);
  }
}
