# redux-fetch in Dafny

A model of the request middleware of `redux-fetch` (`index.js`), with proofs of what it does.

The library has three parts:

- **The request builder.** A `FetchAction` holds a prefix that names a family of action types. It also holds a route, the options passed to the transport, an optional list of accepted statuses, and four optional hooks (`onRequest`, `onSuccess`, `onFailure`, `onFinish`). Chained setters fill these in, and each setter returns the same object.
- **`configure`.** It fills in the middleware's defaults: the base URL, the four action-type suffixes (`_REQUEST`, `_SUCCESS`, `_FAILURE`, `_FINISH`) and the transport.
- **The middleware.** An input that is not a `FetchAction` goes to the next middleware. A `FetchAction` causes these steps, in order:
  1. a REQUEST dispatch;
  2. one transport call to `baseUrl + route`;
  3. a body decoder chosen from the `Content-Type` header;
  4. exactly one of a SUCCESS or a FAILURE dispatch;
  5. a FINISH dispatch.

  Each dispatch can be vetoed by its hook. The call returns `{result, body}`. A rejection from the transport or from the decoder is rethrown unless it is a `FetchError` (see "## Left out").

Files:

- `values.dfy`: `Option`, `Result`, and JavaScript values (`Value`; numbers are integers).
- `exchange.dfy`: the response as the middleware sees it. It holds the status, `ok`, the `Content-Type`, and what `res.json()` and `res.text()` would produce. This file also has the `FetchError` data carrier.
- `action.dfy`: the `FetchAction` class. Its fields are updated in place by setters that return `this`. `InitialState` is what the constructor builds, and `Create` models the constructor's throw.
- `configuration.dfy`: `Configure`. It fills in defaults and completes the caller's suffix object (`SuffixTable`) in place.
- `middleware.dfy`:
  - `Run`, a specification of one call of the middleware. It gives the ordered list of calls the middleware makes to its surroundings, and how the call ends.
  - `Host`, which records those calls: dispatches, the transport call, and the call to `next`.
  - `FetchMiddleware`, the step-by-step imperative middleware, proved to append exactly `Run`'s calls and to end as `Run` says.
- `middleware_properties.dfy`: the properties of `Run`, and of a sequence of calls (`Replay`).

Where the repository's tests (`test.js`, `test.old.js`) expect behaviour that `index.js` does not have, the model follows `index.js`:

- The REQUEST action carries `route`, not the full URL. The fetch options are spread over it, and an option named `type` or `route` replaces that field.
- Hooks receive only `dispatch` and `getState`, plus the body for `onSuccess` and the error for `onFailure`.
- `configure` keeps a non-empty `baseUrl` it is given and otherwise uses `''`. It never forwards hooks, so a configured middleware applies only the action's own hooks.
- `index.js` defines no verb setters, header or body helpers, query strings, base-URL override, or durations. The tests call some of these, but the model has none of them.
- A non-null but empty status list accepts no response.

## Model

| member | source | states |
|---|---|---|
| `Action.InitialState` | index.js:4-19 | a falsy prefix gives the error "prefix is required"; otherwise the prefix is kept, the route defaults to `'/'` and is never empty, options default to `{}`, and there is no status list and no hook |
| `Action.FetchAction.Create` | index.js:4-19 | construction fails exactly when the prefix is falsy, with "prefix is required"; otherwise a fresh action in the initial state |
| `Action.FetchAction.constructor` | index.js:8-19 | with a checked prefix, the new object's state is the initial state |
| `Action.FetchAction.Route` | index.js:21-24 | returns the same object; only the route changes |
| `Action.FetchAction.SetOpt` | index.js:26-29 | returns the same object; only option `key` changes, to `value`; every other option keeps its value and no key is lost |
| `Action.FetchAction.Expect` | index.js:31-38 | returns the same object; an array is stored as it is, any other value as a one-element list; nothing else changes |
| `Action.ExpectScalar` | index.js:31-33 | a non-array value stored by `expect` is the list's one and only entry |
| `Action.ExpectListIdempotent` | index.js:31-35 | storing the stored list again through `expect` leaves it unchanged |
| `Action.FetchAction.OnRequest` | index.js:40-43 | returns the same object; only the `onRequest` hook changes |
| `Action.FetchAction.OnSuccess` | index.js:45-48 | returns the same object; only the `onSuccess` hook changes |
| `Action.FetchAction.OnFailure` | index.js:50-53 | returns the same object; only the `onFailure` hook changes |
| `Action.FetchAction.OnFinish` | index.js:55-58 | returns the same object; only the `onFinish` hook changes |
| `Configuration.Fill` | index.js:146-151 | every suffix ends up non-empty; a supplied non-empty suffix is kept; a missing or empty one becomes its default |
| `Configuration.FillIdempotent` | index.js:148-151 | filling an already filled suffix table changes nothing |
| `Configuration.DefaultSuffixes` | index.js:146-151 | with no suffixes supplied, the suffixes are `_REQUEST`, `_SUCCESS`, `_FAILURE`, `_FINISH` |
| `Configuration.Resolve` | index.js:142-155 | a non-empty base URL is kept, else `''`; suffixes are filled; the transport defaults to isomorphic-fetch; no hook is forwarded |
| `Configuration.Configure` | index.js:142-156 | returns the resolved configuration, which holds no hooks; the caller's suffix object is completed in place with the same suffixes |
| `Middleware.Decode` | index.js:110-117 | the body comes from the decoder the header selects; with no header the body is undefined; only a selected decoder can throw |
| `Middleware.Classify` | index.js:119-123 | no error exactly when the response is accepted; otherwise the error carries the route, the response and the body |
| `Middleware.Announce` | index.js:104-105 | appends the REQUEST dispatch exactly when the effective `onRequest` hook allows it |
| `Middleware.Settle` | index.js:118-138 | appends the SUCCESS or FAILURE dispatch, then FINISH, each as its effective hook allows |
| `Middleware.FetchMiddleware` | index.js:82-140 | the calls the middleware makes are exactly those of `Run`, in order, and it ends as `Run` does |
| `MiddlewareProperties.ForeignPassesThrough` | index.js:83-84 | a non-`FetchAction` input goes to `next`, whose result is returned unchanged; no dispatch and no transport call |
| `MiddlewareProperties.FetchNotes` | index.js:104-139 | exactly one transport call, with URL `baseUrl + route` and the action's options; no call to `next`; dispatches are REQUEST's, then, only if the chain settles, the verdict's and FINISH's |
| `MiddlewareProperties.SettlesIff` | index.js:107-139 | the call settles with `{result: res, body}` exactly when the transport resolves and the selected decoder succeeds; otherwise the transport's, else the decoder's, exception is rethrown; an unaccepted status still settles |
| `MiddlewareProperties.RequestDispatchedIff` | index.js:95-107 | REQUEST, typed prefix + request suffix and carrying route and options, is dispatched exactly when the effective `onRequest` allows it, and then comes right before the transport call |
| `MiddlewareProperties.SuccessDispatchedIff` | index.js:119-127 | SUCCESS, carrying the body, is dispatched exactly when the call settles, the response is accepted, and the effective `onSuccess` allows it |
| `MiddlewareProperties.FailureDispatchedIff` | index.js:119-134 | FAILURE, carrying an error with route, response and body, is dispatched exactly when the call settles, the response is not accepted, and the effective `onFailure` allows it |
| `MiddlewareProperties.FinishDispatchedIff` | index.js:135-138 | FINISH is dispatched exactly when the call settles and the effective `onFinish` allows it, on either branch, and is then the last call |
| `MiddlewareProperties.DispatchOrder` | index.js:104-138 | dispatches come in the order REQUEST, SUCCESS or FAILURE, FINISH, with at most one of SUCCESS and FAILURE |
| `MiddlewareProperties.RequestVetoDropsOnlyRequest` | index.js:104-105 | an `onRequest` that returns falsy removes REQUEST and changes nothing else: same transport call, same later dispatches, same result |
| `MiddlewareProperties.SuccessVetoDropsOnlySuccess` | index.js:125-126 | an `onSuccess` that returns falsy for the body it receives removes SUCCESS and changes nothing else |
| `MiddlewareProperties.FailureVetoDropsOnlyFailure` | index.js:132-133 | an `onFailure` that returns falsy for the error it receives removes FAILURE and changes nothing else |
| `MiddlewareProperties.FinishVetoDropsOnlyFinish` | index.js:136-137 | an `onFinish` that returns falsy removes FINISH and changes nothing else |
| `MiddlewareProperties.ActionHooksOverrideConfig` | index.js:95-98 | an action that sets all four hooks behaves the same whatever hooks the configuration holds |
| `MiddlewareProperties.ConfiguredUsesActionHooks` | index.js:95-98 | under a configuration built by `configure`, only the action's own hooks decide REQUEST, SUCCESS, FAILURE and FINISH |
| `MiddlewareProperties.RequestNoteFields` | index.js:105 | the REQUEST action holds every option unchanged, plus `type` and `route`, which an option of the same name replaces |
| `MiddlewareProperties.DecoderChoice` | index.js:110-116 | JSON exactly for a header starting with `application/json`, text exactly for one starting with `text/`, nothing otherwise or without a header |
| `MiddlewareProperties.DecoderExamples` | index.js:112-114 | the header match is anchored and case-sensitive (`Application/JSON` and `application/problem+json` get no decoder) |
| `MiddlewareProperties.AcceptedCases` | index.js:119-123 | with a status list, membership alone decides, whatever `ok` says; an empty list accepts nothing; `expect(n)` accepts exactly status n |
| `MiddlewareProperties.ReplayCalls` | index.js:82-107 | over any sequence of inputs, the transport calls are exactly one call per `FetchAction`, to its own URL with its own options, in input order; no other input calls the transport; exactly the other inputs reach `next`, in order |
| `MiddlewareProperties.ReplayDispatches` | index.js:82-138 | over any sequence of inputs, the dispatches are exactly those the `FetchAction`s alone make, in order; the other inputs dispatch nothing |
| `MiddlewareProperties.ReplayDispatchBound` | index.js:104-138 | over any sequence of inputs, there are at most three dispatches per `FetchAction` |

## Left out

- The transport (`isomorphic-fetch` or a supplied one) and the `res.json()` / `res.text()` decoders are foreign code. A transport is named by a `Transport` value. What it resolves to or rejects with is an input (`World`), and so is what each decoder yields (fields of `Response`).
- Promises and asynchrony: the chain is modelled as straight-line steps, because nothing in it runs concurrently.
- The Redux store: `dispatch` is modelled as appending to the `Host` log, and `getState` is not modelled. What `next` returns is an input.
- Hooks are modelled by the truthiness of what they return. What a hook does with `dispatch` or `getState` is not modelled, and a hook that throws is not modelled.
- `FetchError`'s message is not modelled, because it reads `statusCode` and `statusText` from the foreign response object and `method` from the middleware's options. Its `opts` field is not modelled either. Only `route`, `response` and `body` are kept.
- `FetchAction.fetch` / `_fetch` is not modelled: it returns nothing, and the middleware never reads the field.
- Aliasing is not modelled in three places. The options object given to the constructor is shared with the caller, so `setOpt` also changes the caller's object. The middleware also keeps reading the caller's suffix object after `configure`. An array given to `expect` is stored by reference and read when the middleware runs, so a later change to that array by the caller changes which statuses are accepted. The model copies values at all three points.
- Values are simplified. Numbers are integers. Hook fields hold `null` or a function. `prefix` is a string or absent when the action is built.
- `FetchAction.Route`: takes a string only. `route(undefined)` (or any non-string) is not modelled; after it the source requests `baseUrl + "undefined"`.
- `expect` compares with `==` on `Value`, where JavaScript uses SameValueZero; the two agree on integers.
- A `FetchError` thrown by foreign code is not modelled: the model's foreign exceptions (`Thrown`) are never a `FetchError`. In the source (index.js:128-134) a transport or decoder that rejects with an instance of the exported `FetchError` is not rethrown. The middleware then consults `onFailure`, dispatches FAILURE with that error and FINISH, and resolves with `result` and `body` still `null` where they were never set. The model instead rethrows every foreign exception.
- The initial `null` of `res` and `body` is not modelled. It is observable only on the path of the previous line.
