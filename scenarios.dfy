/** The adapter's documented behaviour, one request at a time: each method
    installs an interceptor, calls the hook once and states what the engine
    gets back and what happened to the request and the toolkit. */
module PreAuthScenarios {
  import opened Results
  import Toolkit
  import opened PreAuth

  /** An interceptor answering `t.next()` passes the request on: the hook
      returns the engine's own `continue` signal. */
  method PassesRequestToNextHandler()
    returns (result: HandlerResult, continueSymbol: Symbol, ghost setUrlCalls: seq<string>, ghost redirectCalls: seq<string>)
    ensures result == Signal(continueSymbol)
    ensures setUrlCalls == [] && redirectCalls == []
  {
    continueSymbol := new Symbol();
    var unused := new Symbol();
    var h := new ResponseToolkit(continueSymbol, unused);
    var raw := new RawRequest(None);
    var request := new Request("/", raw);
    result := InterceptPreAuthRequest((req: RequestView) => Returned(Toolkit.Next()), request, h);
    setUrlCalls := request.setUrlCalls;
    redirectCalls := h.redirectCalls;
  }

  /** `t.redirected('/docs')` calls `redirect('/docs')` once and returns the
      takeover signal, not the continue signal. */
  method RedirectsToSpecifiedUrl()
    returns (result: HandlerResult, continueSymbol: Symbol, takeoverSymbol: Symbol, ghost setUrlCalls: seq<string>, ghost redirectCalls: seq<string>)
    ensures result == Signal(takeoverSymbol) && result != Signal(continueSymbol)
    ensures redirectCalls == ["/docs"] && setUrlCalls == []
  {
    continueSymbol := new Symbol();
    takeoverSymbol := new Symbol();
    var h := new ResponseToolkit(continueSymbol, takeoverSymbol);
    var raw := new RawRequest(None);
    var request := new Request("/", raw);
    result := InterceptPreAuthRequest(
      (req: RequestView) => Returned(Toolkit.Redirected("/docs", Toolkit.NoRedirectOptions)), request, h);
    redirectCalls := h.redirectCalls;
    setUrlCalls := request.setUrlCalls;
  }

  /** `t.redirected('/docs', {forward: true})` against a raw request with no
      URL: `setUrl('/docs')` is called, the raw URL becomes '/docs', no
      redirect is issued and the continue signal is returned. */
  method ForwardsRequestToSpecifiedUrl()
    returns (result: HandlerResult, continueSymbol: Symbol, rawUrl: Option<string>,
             ghost setUrlCalls: seq<string>, ghost redirectCalls: seq<string>)
    ensures result == Signal(continueSymbol)
    ensures rawUrl == Some("/docs")
    ensures setUrlCalls == ["/docs"] && redirectCalls == []
  {
    continueSymbol := new Symbol();
    var unused := new Symbol();
    var h := new ResponseToolkit(continueSymbol, unused);
    var raw := new RawRequest(None);
    var request := new Request("/", raw);
    result := InterceptPreAuthRequest(
      (req: RequestView) => Returned(Toolkit.Redirected("/docs", Toolkit.RedirectOptions(Some(true)))), request, h);
    rawUrl := raw.url;
    setUrlCalls := request.setUrlCalls;
    redirectCalls := h.redirectCalls;
  }

  /** `t.rejected(new Error('unexpected result'), {statusCode: 501})` gives
      an error with that message and status code 501. */
  method RejectsWithStatusCodeAndMessage()
    returns (result: HandlerResult, ghost setUrlCalls: seq<string>, ghost redirectCalls: seq<string>)
    ensures result == Failure(HttpError("unexpected result", 501))
    ensures setUrlCalls == [] && redirectCalls == []
  {
    var continueSymbol := new Symbol();
    var takeoverSymbol := new Symbol();
    var h := new ResponseToolkit(continueSymbol, takeoverSymbol);
    var raw := new RawRequest(None);
    var request := new Request("/", raw);
    result := InterceptPreAuthRequest(
      (req: RequestView) => Returned(Toolkit.Rejected(Error("unexpected result"), Toolkit.RejectOptions(Some(501)))),
      request, h);
    setUrlCalls := request.setUrlCalls;
    redirectCalls := h.redirectCalls;
  }

  /** An interceptor throwing `new Error('unknown error')` gives an internal
      error with that message and status code 500. */
  method InternalErrorWhenInterceptorThrows()
    returns (result: HandlerResult, ghost setUrlCalls: seq<string>, ghost redirectCalls: seq<string>)
    ensures result == Failure(HttpError("unknown error", 500))
    ensures setUrlCalls == [] && redirectCalls == []
  {
    var continueSymbol := new Symbol();
    var takeoverSymbol := new Symbol();
    var h := new ResponseToolkit(continueSymbol, takeoverSymbol);
    var raw := new RawRequest(None);
    var request := new Request("/", raw);
    result := InterceptPreAuthRequest((req: RequestView) => Threw(Error("unknown error")), request, h);
    setUrlCalls := request.setUrlCalls;
    redirectCalls := h.redirectCalls;
  }

  /** An interceptor returning `undefined` gives an internal error with the
      fixed message naming `undefined` and status code 500. */
  method InternalErrorOnUnexpectedResult()
    returns (result: HandlerResult, ghost setUrlCalls: seq<string>, ghost redirectCalls: seq<string>)
    ensures result == Failure(HttpError(
      "Unexpected result from OnPreAuth. Expected OnPreAuthResult, but given: undefined.", 500))
    ensures setUrlCalls == [] && redirectCalls == []
  {
    var continueSymbol := new Symbol();
    var takeoverSymbol := new Symbol();
    var h := new ResponseToolkit(continueSymbol, takeoverSymbol);
    var raw := new RawRequest(None);
    var request := new Request("/", raw);
    result := InterceptPreAuthRequest((req: RequestView) => Other("undefined"), request, h);
    setUrlCalls := request.setUrlCalls;
    redirectCalls := h.redirectCalls;
  }
}
