# node-mackerel client logic in Dafny

This project models the decision logic of the two Mackerel API clients in the
node-mackerel repository, and proves properties of that model. The Mackerel API
is a monitoring service's HTTP API. What is modelled is everything between the
caller and the HTTP transport:

- the client configuration (API key check, origin/version defaults, endpoint);
- the request options record built for every call;
- the classification of the transport's reply into a fulfilled or rejected
  promise;
- the routing of that outcome through an optional Node-style completion
  callback;
- the timestamp fill applied to posted metrics;
- the table of public methods (path, verb, payload);
- the older client's argument guards and error messages.

The transport's reply is an input value. `JSON.stringify` is an injected
`Encoder`, `JSON.parse` an injected `Parser`, or, in the promise-based client,
the `error` member it yields (`ErrorField`). The clock is a sequence of
millisecond readings, one per metric stamped.

Modules:

- `Js` (js.dfy): the JavaScript semantics the clients rely on:
  - truthiness and `x || fallback`;
  - the top level of `JSON.stringify`, which is `undefined` for `undefined` and
    for functions;
  - how a template literal renders `undefined` and integers.
- `Promises` (promises.dfy): the settlement of a call's promise, and the shared
  `.then(cb(null, res, body)).catch(cb(err))` chain. The callback is recorded
  as a behaviour, meaning what it returns or throws for each outcome.
- `Client` (client.dfy): src/mackerel.js. Covers the constructor, `request`
  (options built imperatively and proved against the predicate
  `IsRequestFor`), reply classification and `api`. Also covers the in-place
  `forEach` timestamp fill, as an array loop proved against `StampAll`.
- `Endpoints` (endpoints.dfy): the public methods of src/mackerel.js as
  (path, verb, payload, callback forwarded) rows. The quirks are kept as
  written:
  - `deleteDashboard` passes its callback as the payload;
  - `getHostMetrics` and `postMetrics` drop the callback;
  - `deleteGraphAnnotation` and `deleteUser` use GET;
  - `modifyMonitor` and `deleteMonitor` ignore the monitor id.
- `Legacy` (legacy.dfy): lib/mackerel.js. Covers:
  - the trailing-callback detection on the argument list;
  - the JSON body;
  - 401 before the generic status rule;
  - argument guards that reject without building a request;
  - the error message formats.

Behaviour the code shows, followed by the model, that a plain reading of the
clients' intent would state differently:

- In src/mackerel.js, a reply with no response object never settles: reading
  `res.statusCode` throws inside the transport callback before the transport
  error is looked at. `Client.Classify` yields `Pending` there rather than a
  transport-error rejection.
- In both clients, a callback that throws from the success branch is called a
  second time by the trailing `.catch`, with its own error.
- In lib/mackerel.js the 401 handler sees the raw body text, so `body.error` is
  undefined. The message is therefore exactly "authentication failed".
- In lib/mackerel.js the `ApiError` message is `JSON.stringify` of the raw text,
  a quoted JSON string literal.
- In lib/mackerel.js the `body` parameter of `api` is the third positional
  argument even when that argument is the callback. `getHosts(cb)` therefore
  sends no body, because a function has no JSON text.
- `Mackerel.statuses` spells "retuired", so "retired" is refused.

## Model

| member | source | states |
|---|---|---|
| Js.StringOr | src/mackerel.js:205-206 | the JavaScript "or" default takes a non-empty string verbatim and otherwise the fallback, so a non-empty fallback always gives a non-empty result (which is why a constructed client has a non-empty origin and version) |
| Js.OrEmptyObject | src/mackerel.js:224 | the payload default to `{}` is always truthy, keeps a truthy value and replaces a falsy one by `{}` |
| Js.DigitsRoundTrip | src/mackerel.js:296 | the decimal digits of a number read back as that number |
| Js.DecimalStringInjective | src/mackerel.js:296 | distinct integers render as distinct decimal strings |
| Js.SignOf | src/mackerel.js:374 | a rendered integer starts with "-" exactly when it is negative, and the digits of its magnitude follow |
| Js.DigitsInjective | src/mackerel.js:296 | distinct non-negative numbers have distinct digit strings |
| Promises.CatchWith | src/mackerel.js:246-249 | the catch branch calls the callback once more with the rejection, and the promise settles with what that call returned or threw |
| Promises.ThenCatch | src/mackerel.js:243-250 | the call's promise is pending iff the outcome is; without a callback the outcome passes through unchanged; with one the callback first receives the outcome, is never given a pending one, is called at most twice (twice only when it throws on success), and the promise settles with what its last call returned (fulfilled) or threw (rejected) |
| Promises.CallbackCalledOnce | src/mackerel.js:244-247 | a callback that does not throw is called exactly once with the outcome, and its return value fulfils the promise |
| Promises.ThrowingCallbackCalledTwice | src/mackerel.js:244-248 | a callback that throws on success is called again with its own error |
| Promises.CallbackAbsorbsRejection | src/mackerel.js:246-247 | with a callback that never throws, the promise never rejects |
| Client.New | src/mackerel.js:202-209 | fails with NoAPIKeyError iff the key is absent or empty; otherwise the client is valid, keeps the key, takes truthy origin/version verbatim or the defaults, endpoint is origin + "/api/" + version, and a proxy is stored iff a truthy one was given |
| Client.DefaultEndpoint | src/mackerel.js:205-207 | with no options the client uses "https://mackerel.io", "v0" and "https://mackerel.io/api/v0" |
| Client.EndpointDecomposes | src/mackerel.js:207 | a valid client's endpoint splits into origin, "/api/" and version |
| Client.Header | src/mackerel.js:215-219 | header lookup finds a header that is present, and finds nothing only when no header has that name |
| Client.Payload | src/mackerel.js:224 | the payload text is missing only for a function, and a falsy payload is sent as the JSON of `{}` |
| Client.BuildRequest | src/mackerel.js:211-229 | the step-by-step option building yields exactly the options `IsRequestFor` describes |
| Client.RequestHeaders | src/mackerel.js:212-222 | every request carries the client's key under X-Api-Key and the fixed contentType and accepts values; a proxy is set iff a truthy one is configured |
| Client.QueryCarriesPayload | src/mackerel.js:224-226 | GET and DELETE URLs are endpoint + path, then "?", then the payload's JSON text verbatim; form stays null |
| Client.FormCarriesPayload | src/mackerel.js:227-228 | POST and PUT leave the URL as endpoint + path and put the payload's JSON text in the form |
| Client.RequestDetermined | src/mackerel.js:211-229 | the options are uniquely determined by client, path, verb and payload |
| Client.ParsedText | src/mackerel.js:233 | an absent or empty body is parsed as "{}"; the parsed text is never empty |
| Client.StatusMessage | src/mackerel.js:235 | the rejection message is the body's `error` member when non-empty, else "unknown err"; a failing status is never reported with an empty message |
| Client.Classify | src/mackerel.js:232-239 | no response: never settles; status >= 400 rejects with the status message; otherwise a transport error rejects with that error (iff); otherwise it fulfils with the response and unmodified raw body (iff) |
| Client.StatusBeforeTransportError | src/mackerel.js:234-237 | a failing status is reported even when a transport error accompanies it |
| Client.EmptyBodyIsUnknownError | src/mackerel.js:233-235 | a failing status with an empty body rejects with "unknown err" |
| Client.ErrorMemberIsMessage | src/mackerel.js:233-235 | a failing status rejects with the body's `error` member verbatim |
| Client.Api | src/mackerel.js:243-250 | `api` builds the request options for its arguments and delivers the classified outcome through the callback chain |
| Client.ApiSuccessWithCallback | src/mackerel.js:244-245 | on success the callback is called once with `(null, res, body)` and the promise fulfils |
| Client.ApiFailureWithCallback | src/mackerel.js:246-247 | on failure the callback is called once with the error and the failure is not rethrown |
| Client.ApiWithoutCallback | src/mackerel.js:244-248 | without a callback, success yields `{res, body}` and failure propagates, with no callback calls |
| Client.Stamp | src/mackerel.js:292 | a metric with a truthy time keeps it; otherwise its time becomes the current time in whole seconds, truncated; other fields unchanged |
| Client.StampAllAt | src/mackerel.js:292 | the fill keeps the list length and stamps each metric at its own position, with the clock reading taken for that metric |
| Client.StampAllTimed | src/mackerel.js:292 | with clock readings past the first second, every metric leaves the fill with a truthy time |
| Client.StampAllLength | src/mackerel.js:292 | the fill keeps the number of metrics |
| Client.StampAllIdempotent | src/mackerel.js:292 | once the readings are past the first second, a second fill, with any readings, changes nothing |
| Client.StampMetrics | src/mackerel.js:292 | the in-place loop, reading the clock once per metric, leaves the array equal to the fill of its old contents; with readings past the first second every metric then has a truthy time |
| Endpoints.Seconds | src/mackerel.js:296 | the truncation of ms / 1000 is the whole number of seconds in ms, truncated |
| Endpoints.RoleList | src/mackerel.js:279-281 | roles become a list: a list is kept, any other value becomes a one-element list |
| Endpoints.RoleListIdempotent | src/mackerel.js:280 | wrapping roles twice equals wrapping once |
| Endpoints.MetricValue | src/mackerel.js:292-293 | a posted record carries the metric's name, value, time (undefined when absent) and host id when present |
| Endpoints.MetricsValue | src/mackerel.js:293 | the posted payload is a JSON array whose entry i is the record of metric i |
| Endpoints.PathOf | src/mackerel.js:252-399 | every method's path is absolute (starts with "/") |
| Endpoints.VerbOf | src/mackerel.js:252-399 | GET iff the method is a getter, deleteGraphAnnotation or deleteUser; DELETE iff deleteMetadata, deleteMonitor or deleteDashboard |
| Endpoints.DataOf | src/mackerel.js:252-399 | deleteMetadata and deleteMonitor send null; deleteDashboard sends its callback as the payload, or undefined without one; modifyHostRole sends `{roleFullnames}` of the wrapped roles; the metric posters send their metrics' records |
| Endpoints.ReadsSendNull | src/mackerel.js:252-399 | every method that uses GET, deleteGraphAnnotation and deleteUser included, sends a null payload |
| Endpoints.GetterQueryIsEmptyObject | src/mackerel.js:252-399 | every getter's query string is the JSON text of `{}` |
| Endpoints.DeleteDashboardQuirk | src/mackerel.js:362-364 | deleteDashboard with a callback requests ".../dashboards/<id>?undefined" |
| Endpoints.MonitorIdIgnored | src/mackerel.js:337-342 | modifyMonitor and deleteMonitor produce the same request whatever the monitor id |
| Endpoints.DigitPrefixUnique | src/mackerel.js:296 | a digit string before "&to=" is determined by the path |
| Endpoints.HostMetricSeconds | src/mackerel.js:295-297 | two getHostMetric calls produce the same request iff both bounds fall in the same whole seconds |
| Endpoints.MetricPosterRoutes | src/mackerel.js:291-309 | postMetrics posts to "/tsdb" without forwarding the callback, postServiceMetrics posts to the service's tsdb path and forwards it; both send their metrics' records |
| Endpoints.PostedMetricsCarryTime | src/mackerel.js:291-293 | after the fill, with readings past the first second, every posted record carries its metric's non-zero stamped time |
| Endpoints.Call | src/mackerel.js:252-399 | a public method other than the two metric posters builds the request for its table row and forwards the caller's callback only where the row does |
| Endpoints.PostHostMetrics | src/mackerel.js:291-294 | postMetrics stamps the caller's array in place, one clock reading per metric, posts the stamped records to "/tsdb" and never calls the callback |
| Endpoints.PostServiceMetricsCall | src/mackerel.js:306-309 | postServiceMetrics stamps the caller's array in place, one clock reading per metric, posts the records to the service's tsdb path and forwards the callback |
| Legacy.SuffixedMessage | lib/mackerel.js:159-181 | the NoApiKeyError and AuthenticationError messages always begin with their fixed prefix, followed by the optional message only when it is non-empty |
| Legacy.NoDataMessage | lib/mackerel.js:186-189 | "api `<name>` requires `data`", with the name verbatim in the middle |
| Legacy.NoIdMessage | lib/mackerel.js:198-201 | "api `<name>` requires `id`", with the name verbatim in the middle |
| Legacy.InvalidStatusMessage | lib/mackerel.js:210-213 | "`<status>` is invalid", where a missing status reads "undefined" |
| Legacy.NoIdMessageInjective | lib/mackerel.js:198-201 | a missing-id message identifies its method |
| Legacy.GuardMessagesDiffer | lib/mackerel.js:186-201 | a missing-id message never equals a missing-data message |
| Legacy.New | lib/mackerel.js:15-24 | fails with "api key required" iff the key is absent or empty; otherwise option defaults to `{}`, origin comes from mackerelOrigin or the default, version defaults to "v0", endpoint is origin + "/api/" + version |
| Legacy.DefaultEndpoint | lib/mackerel.js:11-23 | with no option the endpoint is "https://mackerel.io/api/v0" |
| Legacy.BuildRequest | lib/mackerel.js:32-43 | the step-by-step option building yields exactly the options `IsRequestFor` describes |
| Legacy.BodyIsJsonText | lib/mackerel.js:40-42 | a falsy body sends no body; a truthy one sends its JSON text |
| Legacy.CallbackAsBodySendsNoBody | lib/mackerel.js:72-74 | when the callback is the third argument, the request has no body |
| Legacy.Classify | lib/mackerel.js:44-60 | a transport error rejects with it; a 401 rejects with "authentication failed"; other statuses of 400 or more reject with the body's JSON text; the call fulfils with the parsed body iff there is no error and the status is below 400 |
| Legacy.UnauthorizedBeforeApiError | lib/mackerel.js:48-53 | a 401 is an authentication error, not an ApiError |
| Legacy.Api | lib/mackerel.js:26-70 | `api` builds the options from its third argument and uses the callback chain iff its last argument is a function |
| Legacy.TrailingCallback | lib/mackerel.js:28-31 | only a function in the last position is taken as the callback |
| Legacy.DispatchOf | lib/mackerel.js:72-124 | a missing id is refused first, then missing data or a status outside the list; a call goes to `api` iff every guard passes, with the callback last |
| Legacy.IdCheckedBeforeData | lib/mackerel.js:90-96 | updateHostInfo with neither id nor data reports "api `updateHostInfo` requires `id`" |
| Legacy.RetiredIsInvalid | lib/mackerel.js:100-106 | changeHostStatus with "retired" is refused with "`retired` is invalid" |
| Legacy.MissingStatusMessage | lib/mackerel.js:104-106 | changeHostStatus without a status is refused with "`undefined` is invalid" |
| Legacy.Invoke | lib/mackerel.js:72-124 | a refused guard rejects without building a request or calling the callback; otherwise the call goes through `api` |

## Left out

- The HTTP transport (the `request` library, `request[method.toLowerCase()]`, `Mackerel.request`): its reply is an input value.
- Promise asynchrony: a call is modelled by the final settlement of its promise. The single-resolution rule of `deferred` (lib/mackerel.js:131-137, reject then resolve) is taken as "the error wins".
- JSON encoding and decoding are injected functions. A body that `JSON.parse` rejects (src/mackerel.js:233, lib/mackerel.js:54) would throw; this is not modelled.
- `Date.now()` is a sequence of millisecond readings, one per metric, in the order the loop takes them. Nothing is assumed about how the readings relate to each other; the clock is taken as non-negative, and the 32-bit wrap-around of `0|x` is not modelled.
- Numbers are integers: a fractional metric value or time, and a fractional `from`/`to` in `getGraphAnnotation` (src/mackerel.js:373-374), are not modelled. `Js.DecimalString` writes every integer in plain digits, whereas JavaScript renders numbers of 1e21 and above in exponent form; that rendering is not modelled.
- The Flow type declarations, the `create-error` and `__extends` error-class machinery (errors are a datatype with their messages), and the test file.
- Aliasing: the caller's metric objects are values in an array, so the model captures the in-place update of the array, not shared references to the same object elsewhere.
- Legacy.Classify: assumes the transport supplies a response whenever it reports no error.
- Legacy.Api: the completion callback is one behaviour (`run`) rather than the function value found in the argument list.
- Legacy.DispatchOf: ids and statuses are optional strings, not arbitrary JavaScript values; other truthy ids are not modelled.
- Endpoints.PathOf: its contract states only that paths are absolute. The exact path strings are the table itself, and the lemmas HostMetricSeconds, MonitorIdIgnored and DeleteDashboardQuirk state what depends on them.
- Endpoints.MetricsValue: the order of object keys inside each serialised metric is not claimed to match the caller's object.
- Client.Classify: the error thrown when `res` is missing is not modelled as a crash of the process; the promise is simply `Pending`.
