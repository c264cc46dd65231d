# OnPreAuth interceptor adapter

This project models `adoptToHapiOnPreAuthFormat`, the adapter that lets a
platform-level pre-authentication interceptor run in the HTTP engine's
pre-auth hook. The interceptor receives a view of the request and a toolkit,
and answers with one of three outcomes built by that toolkit: `next()`,
`redirected(url, {forward})` or `rejected(error, {statusCode})`. The adapter
turns that answer into exactly one engine directive:

- `next()`: it returns the engine's `continue` signal itself.
- `redirected(url)`: it calls `h.redirect(url)` and returns that response's `takeover()` signal.
- `redirected(url, {forward: true})`: it rewrites the request URL with `setUrl(url)`, also writes `url` into the raw request's `url` field, and returns `continue`.
- `rejected(error, {statusCode})`: it returns an HTTP (Boom) error with the error's message and the status code, or 500 when none is given.

Faults are folded into the same error shape, so no exception escapes the hook.
An interceptor that throws gives a 500 error carrying the thrown message. An
interceptor that returns anything other than an outcome gives a 500 error
whose message is
`Unexpected result from OnPreAuth. Expected OnPreAuthResult, but given: <value>.`

The implementation file `src/core/server/http/lifecycle/on_pre_auth.ts` is not
part of this model. Its behaviour is reconstructed from its test suite,
`src/core/server/http/lifecycle/on_pre_auth.test.ts`, which the table below
cites. The tests leave several cases open. The model settles each of them
as follows:

- A rejection without a status code is answered with 500, the same code the throw path uses.
- `redirected(url, {forward: false})` is a client redirect, like `redirected(url)` with no options. Only `forward: true` forwards.
- Every value that is not an outcome, not only `undefined`, gets the unexpected-result message with its string form, and status code 500.
- A thrown value is taken to be an `Error` with a message. Throwing anything else is not modelled.

Layout:

- `results.dfy` (module `Results`): the `Outcome` sum type (OnPreAuthResult) and its options.
- `toolkit.dfy` (module `Toolkit`): the three outcome constructors handed to interceptors.
- `messages.dfy` (module `Messages`): the unexpected-result message and the parser that reads the value back out of it.
- `adapter.dfy` (module `PreAuth`): the pure translation `Plan`; the engine's request, raw request and response toolkit as classes; the hook as the method `InterceptPreAuthRequest`.
- `scenarios.dfy` (module `PreAuthScenarios`): the six documented cases, each run through the hook.

The interceptor is a parameter of the hook: a function from the request view
to what the call produced. That is either a returned outcome, a thrown error,
or some other value given by its string form. The engine's `continue` and
takeover signals are objects compared by identity. Each engine call the
tests observe has a ghost log: `Request.setUrlCalls` records `setUrl` calls
and `ResponseToolkit.redirectCalls` records `redirect` calls.

## Model

| member | source | states |
|---|---|---|
| `Results.RejectionStatus` | src/core/server/http/lifecycle/on_pre_auth.test.ts:76-85 | a rejection is answered with the status code the interceptor gave, and with 500 when it gave none |
| `Toolkit.Next` | src/core/server/http/lifecycle/on_pre_auth.test.ts:29 | `t.next()` builds the pass-through outcome |
| `Toolkit.Redirected` | src/core/server/http/lifecycle/on_pre_auth.test.ts:56-60 | `t.redirected(url, options)` builds a redirection to exactly `url`; it forwards in place if and only if `forward` is `true` |
| `Toolkit.Rejected` | src/core/server/http/lifecycle/on_pre_auth.test.ts:77-79 | `t.rejected(error, options)` builds a rejection carrying `error`, answered with the given status code or 500 |
| `Messages.UnexpectedResultMessage` | src/core/server/http/lifecycle/on_pre_auth.test.ts:103-105 | the unexpected-result message is the fixed prefix, then exactly the value's string form, then a final period |
| `Messages.StripPrefix` | src/core/server/http/lifecycle/on_pre_auth.test.ts:103-105 | stripping the message's fixed prefix succeeds if and only if the message starts with it, and then leaves exactly the rest of the message |
| `Messages.ShownValue` | src/core/server/http/lifecycle/on_pre_auth.test.ts:103-105 | whatever value is read back from a message is one whose message is exactly that message |
| `Messages.ShownValueRoundTrip` | src/core/server/http/lifecycle/on_pre_auth.test.ts:103-105 | the message names the returned value verbatim: reading it back gives that value |
| `Messages.ShownValueIff` | src/core/server/http/lifecycle/on_pre_auth.test.ts:103-105 | a message reads back as value `v` if and only if it is the message for `v` |
| `Messages.UnexpectedResultMessageInjective` | src/core/server/http/lifecycle/on_pre_auth.test.ts:98-107 | two different unexpected values never produce the same error message |
| `PreAuth.Plan` | src/core/server/http/lifecycle/on_pre_auth.test.ts:26-107 | each interceptor result maps to exactly one directive. It continues if and only if the result is `next()`. It redirects if and only if the result is a redirection without `forward: true`, and forwards if and only if it is one with `forward: true`, both to the outcome's URL. It fails if and only if the interceptor threw, returned a non-outcome or rejected; the first two always give 500 |
| `PreAuth.RedirectedPlan` | src/core/server/http/lifecycle/on_pre_auth.test.ts:40-74 | `t.redirected(url, options)` is served as a forward to `url` when `forward` is `true`, and as a client redirect to `url` otherwise |
| `PreAuth.RejectedPlan` | src/core/server/http/lifecycle/on_pre_auth.test.ts:76-85 | `t.rejected(error, options)` gives an error with `error`'s message and the given status code, or 500 |
| `PreAuth.ThrowPlan` | src/core/server/http/lifecycle/on_pre_auth.test.ts:87-96 | a throwing interceptor gives an error with the thrown message and status code 500 |
| `PreAuth.UnexpectedResultPlan` | src/core/server/http/lifecycle/on_pre_auth.test.ts:98-107 | a non-outcome result gives a 500 error whose message names exactly the returned value |
| `PreAuth.Request.SetUrl` | src/core/server/http/lifecycle/on_pre_auth.test.ts:62-71 | `setUrl(url)` sets the effective URL to `url` and is recorded once in the call log |
| `PreAuth.ResponseToolkit.Redirect` | src/core/server/http/lifecycle/on_pre_auth.test.ts:44-52 | `redirect(url)` is recorded with `url`, and its response's `takeover()` gives the toolkit's takeover signal |
| `PreAuth.InterceptPreAuthRequest` | src/core/server/http/lifecycle/on_pre_auth.test.ts:26-107 | the hook carries out `Plan` of the interceptor's result. It returns `continue` for next and for a forward, the takeover signal for a redirect, and the error itself for a rejection or fault. `redirect` is called once with the URL on a redirect and never otherwise. `setUrl` and the raw URL are both set to the URL on a forward. On every other path the request is left untouched |
| `PreAuthScenarios.PassesRequestToNextHandler` | src/core/server/http/lifecycle/on_pre_auth.test.ts:27-38 | `t.next()` makes the hook return the `continue` signal it was given; neither `setUrl` nor `redirect` is called |
| `PreAuthScenarios.RedirectsToSpecifiedUrl` | src/core/server/http/lifecycle/on_pre_auth.test.ts:40-54 | `t.redirected('/docs')` calls `redirect` once with '/docs', never calls `setUrl`, and returns the takeover signal, not `continue` |
| `PreAuthScenarios.ForwardsRequestToSpecifiedUrl` | src/core/server/http/lifecycle/on_pre_auth.test.ts:56-74 | forwarding to '/docs' calls `setUrl('/docs')`, sets the raw URL to '/docs', never calls `redirect`, and returns `continue` |
| `PreAuthScenarios.RejectsWithStatusCodeAndMessage` | src/core/server/http/lifecycle/on_pre_auth.test.ts:76-85 | rejecting with 'unexpected result' and 501 gives exactly that error; neither `setUrl` nor `redirect` is called |
| `PreAuthScenarios.InternalErrorWhenInterceptorThrows` | src/core/server/http/lifecycle/on_pre_auth.test.ts:87-96 | throwing 'unknown error' gives that message with status code 500; neither `setUrl` nor `redirect` is called |
| `PreAuthScenarios.InternalErrorOnUnexpectedResult` | src/core/server/http/lifecycle/on_pre_auth.test.ts:98-107 | returning `undefined` gives exactly the message "Unexpected result from OnPreAuth. Expected OnPreAuthResult, but given: undefined." with status code 500; neither `setUrl` nor `redirect` is called |

## Left out

- Asynchrony: the interceptor call and its promise are modelled as one synchronous step. A rejected promise is the same `Threw` result as a synchronous throw. An interceptor that never settles is not modelled.
- Boom internals: a Boom error is reduced to its message and status code. Boom's own validation of the status code (it must be 400 or more, and a falsy code counts as absent) is not modelled.
- JavaScript stringification: a non-outcome value is given by its already-rendered string form (`Other(shown)`). Only the message template around it is modelled.
- The request view passed to the interceptor carries only the URL. The rest of the platform request object is not modelled.
- The interceptor receives the toolkit as the global `Toolkit` functions rather than as an argument.
- Throwing a value that is not an `Error` is not modelled: `Threw` carries an error with a message.
- Faults raised by the engine's own `setUrl` or `redirect` are not modelled. The engine is modelled by classes whose calls always succeed.
- Registering the hook with the engine, and what the engine does with the returned signal or error, are not modelled.
- `src/core/public/chrome/index.ts` only re-exports UI types and has no logic. It is not part of this model.
