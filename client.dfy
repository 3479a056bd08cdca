/**
 * The promise-based Mackerel client (src/mackerel.js): client configuration,
 * the request options built for every call, the classification of the
 * transport's reply, the `api` routing through an optional callback, and the
 * timestamp fill that `postMetrics`/`postServiceMetrics` apply to metrics.
 *
 * The transport (the `request` library) is not modelled: its reply is an input
 * value.  JSON encoding is the injected `Encoder`; JSON decoding is seen only
 * through the `error` member it yields (`ErrorField`).
 */
module Client {
  import opened Js
  import opened Promises

  const DefaultOrigin := "https://mackerel.io"
  const DefaultVersion := "v0"
  const JsonMime := "application/json"
  const UnknownError := "unknown err"

  /** The constructor's `options`; `None` is an absent property. */
  datatype Options = Options(origin: Option<string>, version: Option<string>, proxy: Option<string>)

  const NoOptions := Options(None, None, None)

  datatype Error =
    | NoAPIKeyError
    | ApiError(message: string)      // `new Error(...)` for a status of 400 or more
    | TransportError(cause: string)  // the transport's own `err`
    | CallbackError(message: string) // thrown by the caller's completion callback

  /** The fields a client instance holds; they are assigned once, by the constructor. */
  datatype Client = Client(apikey: string, origin: string, version: string, endpoint: string, proxy: Option<string>)

  /** What every constructed client satisfies. */
  predicate Valid(c: Client) {
    && c.apikey != ""
    && c.origin != ""
    && c.version != ""
    && c.endpoint == c.origin + "/api/" + c.version
    && (c.proxy.Some? ==> c.proxy.value != "")
  }

  /** `new Mackerel(apikey, options)`: throws `NoAPIKeyError` unless the key is a non-empty string. */
  function New(apikey: Option<string>, options: Options): (r: Result<Client, Error>)
    ensures r.Failure? <==> !Filled(apikey)
    ensures r.Failure? ==> r.error == NoAPIKeyError
    ensures r.Success? ==> Valid(r.value) && r.value.apikey == apikey.value
    ensures r.Success? ==> r.value.origin == (if Filled(options.origin) then options.origin.value else DefaultOrigin)
    ensures r.Success? ==> r.value.version == (if Filled(options.version) then options.version.value else DefaultVersion)
    ensures r.Success? ==> (r.value.proxy.Some? <==> Filled(options.proxy))
    ensures r.Success? && Filled(options.proxy) ==> r.value.proxy == options.proxy
  {
    if !Filled(apikey) then Failure(NoAPIKeyError)
    else
      var origin := StringOr(options.origin, DefaultOrigin);
      var version := StringOr(options.version, DefaultVersion);
      Success(Client(apikey.value, origin, version, origin + "/api/" + version,
                     if Filled(options.proxy) then options.proxy else None))
  }

  /** Without options a client talks to version v0 of the public service. */
  lemma DefaultEndpoint(apikey: string)
    requires apikey != ""
    ensures New(Some(apikey), NoOptions).Success?
    ensures New(Some(apikey), NoOptions).value.origin == "https://mackerel.io"
    ensures New(Some(apikey), NoOptions).value.version == "v0"
    ensures New(Some(apikey), NoOptions).value.endpoint == "https://mackerel.io/api/v0"
  {
  }

  /** The endpoint ends in the version, after the origin and "/api/". */
  lemma EndpointDecomposes(c: Client)
    requires Valid(c)
    ensures c.endpoint[..|c.origin|] == c.origin
    ensures c.endpoint[|c.origin|..|c.origin| + 5] == "/api/"
    ensures c.endpoint[|c.origin| + 5..] == c.version
  {
  }

  // ---------------------------------------------------------------------------
  // Request options

  datatype Verb = GET | POST | PUT | DELETE

  /** The options record handed to the transport; `form` is `null` until a body is set. */
  datatype RequestOption = RequestOption(verb: Verb, url: string, headers: seq<(string, string)>,
                                         proxy: Option<string>, form: Value)

  /** The value of the first header called `name`. */
  function Header(headers: seq<(string, string)>, name: string): (r: Option<string>)
    ensures r.Some? ==> (name, r.value) in headers
    ensures r.None? ==> forall i :: 0 <= i < |headers| ==> headers[i].0 != name
  {
    if headers == [] then None
    else if headers[0].0 == name then Some(headers[0].1)
    else Header(headers[1..], name)
  }

  /** `JSON.stringify(data || {})`. */
  function Payload(enc: Encoder, data: Value): (r: Option<string>)
    ensures r.None? <==> data.Fn?
    ensures !Truthy(data) ==> r == Some(enc(EmptyObject))
  {
    Stringify(enc, OrEmptyObject(data))
  }

  /**
   * The options `request` builds for a call: the key and the two fixed JSON
   * headers, the proxy only when one is configured, the payload text as the whole
   * query string for GET and DELETE and as the form for POST and PUT.
   */
  predicate IsRequestFor(opt: RequestOption, c: Client, path: string, verb: Verb, data: Value, enc: Encoder) {
    && opt.verb == verb
    && opt.headers == [("X-Api-Key", c.apikey), ("contentType", JsonMime), ("accepts", JsonMime)]
    && opt.proxy == (if Filled(c.proxy) then c.proxy else None)
    && (verb == GET || verb == DELETE ==>
          opt.url == c.endpoint + path + "?" + Interpolate(Payload(enc, data)) && opt.form == Null)
    && (verb == POST || verb == PUT ==>
          opt.url == c.endpoint + path && opt.form == TextValue(Payload(enc, data)))
  }

  /** `request`'s option building: start from a fixed record, then set proxy, url or form. */
  method BuildRequest(c: Client, path: string, verb: Verb, data: Value, enc: Encoder) returns (opt: RequestOption)
    ensures IsRequestFor(opt, c, path, verb, data, enc)
  {
    opt := RequestOption(verb, c.endpoint + path,
                         [("X-Api-Key", c.apikey), ("contentType", JsonMime), ("accepts", JsonMime)],
                         None, Null);
    if Filled(c.proxy) {
      opt := opt.(proxy := c.proxy);
    }
    var reqData := Stringify(enc, if Truthy(data) then data else EmptyObject);
    if verb == GET || verb == DELETE {
      opt := opt.(url := opt.url + "?" + Interpolate(reqData));
    } else if verb == POST || verb == PUT {
      opt := opt.(form := TextValue(reqData));
    }
  }

  /** Every request carries the client's key and the fixed content headers. */
  lemma RequestHeaders(opt: RequestOption, c: Client, path: string, verb: Verb, data: Value, enc: Encoder)
    requires IsRequestFor(opt, c, path, verb, data, enc)
    ensures Header(opt.headers, "X-Api-Key") == Some(c.apikey)
    ensures Header(opt.headers, "contentType") == Some(JsonMime)
    ensures Header(opt.headers, "accepts") == Some(JsonMime)
    ensures opt.proxy.Some? <==> Filled(c.proxy)
  {
    var hs := opt.headers;
    assert hs[1..][1..] == hs[2..];
    assert Header(hs[2..], "accepts") == Some(JsonMime);
  }

  /** GET and DELETE put the payload text, verbatim, after the first `?` past the path. */
  lemma QueryCarriesPayload(opt: RequestOption, c: Client, path: string, verb: Verb, data: Value, enc: Encoder)
    requires IsRequestFor(opt, c, path, verb, data, enc)
    requires verb == GET || verb == DELETE
    requires !data.Fn?
    ensures |opt.url| > |c.endpoint + path|
    ensures opt.url[..|c.endpoint + path|] == c.endpoint + path
    ensures opt.url[|c.endpoint + path|] == '?'
    ensures opt.url[|c.endpoint + path| + 1..] == enc(OrEmptyObject(data))
    ensures opt.form == Null
  {
    var prefix := c.endpoint + path + "?";
    assert opt.url == prefix + enc(OrEmptyObject(data));
    assert opt.url[..|prefix|] == prefix;
  }

  /** POST and PUT leave the URL alone and send the payload text as the form. */
  lemma FormCarriesPayload(opt: RequestOption, c: Client, path: string, verb: Verb, data: Value, enc: Encoder)
    requires IsRequestFor(opt, c, path, verb, data, enc)
    requires verb == POST || verb == PUT
    requires !data.Fn?
    ensures opt.url == c.endpoint + path
    ensures opt.form == Str(enc(OrEmptyObject(data)))
  {
  }

  /** The options are a function of the call: two requests built for one call are equal. */
  lemma RequestDetermined(o1: RequestOption, o2: RequestOption, c: Client, path: string, verb: Verb,
                          data: Value, enc: Encoder)
    requires IsRequestFor(o1, c, path, verb, data, enc)
    requires IsRequestFor(o2, c, path, verb, data, enc)
    ensures o1 == o2
  {
  }

  // ---------------------------------------------------------------------------
  // Reply classification

  datatype Response = Response(statusCode: int)

  /**
   * What the transport hands to its completion callback: an error, a response
   * (absent when the connection itself failed) and the body text.
   */
  datatype Reply = Reply(err: Option<string>, res: Option<Response>, body: Option<string>)

  /** The string `error` member of `JSON.parse(text)`, if any; supplied by the JSON library. */
  type ErrorField = string -> Option<string>

  /** What a successful call resolves with: the response and the raw body text. */
  datatype ResBody = ResBody(res: Response, body: Option<string>)

  /** `body || "{}"`: the text that is parsed. */
  function ParsedText(body: Option<string>): (t: string)
    ensures Filled(body) ==> t == body.value
    ensures !Filled(body) ==> t == "{}"
    ensures t != ""
  {
    StringOr(body, "{}")
  }

  /** `jsonBody.error || "unknown err"` */
  function StatusMessage(reply: Reply, errorField: ErrorField): (m: string)
    ensures Filled(errorField(ParsedText(reply.body))) ==> m == errorField(ParsedText(reply.body)).value
    ensures !Filled(errorField(ParsedText(reply.body))) ==> m == UnknownError
    ensures m != ""
  {
    StringOr(errorField(ParsedText(reply.body)), UnknownError)
  }

  /**
   * The transport callback in `request`: a status of 400 or more rejects before
   * the transport error is looked at; otherwise the transport error rejects;
   * otherwise the call resolves with the response and the raw body.  Without a
   * response, reading `res.statusCode` throws inside the transport callback and
   * the promise never settles.
   */
  function Classify(reply: Reply, errorField: ErrorField): (s: Settlement<ResBody, Error>)
    ensures s.Pending? <==> reply.res.None?
    ensures reply.res.Some? && reply.res.value.statusCode >= 400 ==>
              s == Rejected(ApiError(StatusMessage(reply, errorField)))
    ensures s.Rejected? && s.reason.TransportError? <==>
              reply.res.Some? && reply.res.value.statusCode < 400 && reply.err.Some?
    ensures s.Rejected? && s.reason.TransportError? ==> s.reason.cause == reply.err.value
    ensures s.Fulfilled? <==> reply.res.Some? && reply.res.value.statusCode < 400 && reply.err.None?
    ensures s.Fulfilled? ==> s.value == ResBody(reply.res.value, reply.body)
  {
    if reply.res.None? then Pending
    else if reply.res.value.statusCode >= 400 then Rejected(ApiError(StatusMessage(reply, errorField)))
    else if reply.err.Some? then Rejected(TransportError(reply.err.value))
    else Fulfilled(ResBody(reply.res.value, reply.body))
  }

  /** A failing status wins over a transport error reported with it. */
  lemma StatusBeforeTransportError(reply: Reply, errorField: ErrorField)
    requires reply.res.Some? && reply.res.value.statusCode >= 400
    requires reply.err.Some?
    ensures Classify(reply, errorField).Rejected?
    ensures Classify(reply, errorField).reason.ApiError?
  {
  }

  /** An empty or absent body reads as `{}`, so a failing status reports "unknown err". */
  lemma EmptyBodyIsUnknownError(reply: Reply, errorField: ErrorField)
    requires reply.res.Some? && reply.res.value.statusCode >= 400
    requires !Filled(reply.body)
    requires errorField("{}") == None
    ensures Classify(reply, errorField) == Rejected(ApiError("unknown err"))
  {
  }

  /** A failing status reports the body's `error` member verbatim, e.g. for a 401. */
  lemma ErrorMemberIsMessage(reply: Reply, errorField: ErrorField, message: string)
    requires reply.res.Some? && reply.res.value.statusCode >= 400
    requires Filled(reply.body) && errorField(reply.body.value) == Some(message) && message != ""
    ensures Classify(reply, errorField) == Rejected(ApiError(message))
  {
  }

  // ---------------------------------------------------------------------------
  // api

  /**
   * `api(path, method, data, cb)`: builds the request, classifies the reply and
   * routes the outcome through the callback when there is one.
   */
  method Api(c: Client, path: string, verb: Verb, data: Value, cb: Option<Callback<ResBody, Error>>,
             enc: Encoder, errorField: ErrorField, reply: Reply)
    returns (opt: RequestOption, d: Delivery<ResBody, Error>)
    ensures IsRequestFor(opt, c, path, verb, data, enc)
    ensures d == ThenCatch(Classify(reply, errorField), cb)
  {
    opt := BuildRequest(c, path, verb, data, enc);
    d := ThenCatch(Classify(reply, errorField), cb);
  }

  /** With a callback, success calls `cb(null, res, body)` and the callback's return value is the result. */
  lemma ApiSuccessWithCallback(reply: Reply, errorField: ErrorField, f: Callback<ResBody, Error>)
    requires reply.res.Some? && reply.res.value.statusCode < 400 && reply.err.None?
    requires f(Fulfilled(ResBody(reply.res.value, reply.body))).Returned?
    ensures ThenCatch(Classify(reply, errorField), Some(f)).calls == [Fulfilled(ResBody(reply.res.value, reply.body))]
    ensures ThenCatch(Classify(reply, errorField), Some(f)).promise.Fulfilled?
  {
    CallbackCalledOnce(Classify(reply, errorField), f);
  }

  /** With a callback, a failure calls `cb(err)` once and is not rethrown. */
  lemma ApiFailureWithCallback(reply: Reply, errorField: ErrorField, f: Callback<ResBody, Error>)
    requires Classify(reply, errorField).Rejected?
    requires f(Classify(reply, errorField)).Returned?
    ensures ThenCatch(Classify(reply, errorField), Some(f)).calls == [Rejected(Classify(reply, errorField).reason)]
    ensures ThenCatch(Classify(reply, errorField), Some(f)).promise.Fulfilled?
  {
  }

  /** Without a callback, success yields `{res, body}` and a failure propagates. */
  lemma ApiWithoutCallback(reply: Reply, errorField: ErrorField)
    requires reply.res.Some?
    ensures ThenCatch(Classify(reply, errorField), None).calls == []
    ensures Classify(reply, errorField).Fulfilled? ==>
              ThenCatch(Classify(reply, errorField), None).promise
                == Fulfilled(Direct(ResBody(reply.res.value, reply.body)))
    ensures Classify(reply, errorField).Rejected? ==>
              ThenCatch(Classify(reply, errorField), None).promise == Rejected(Classify(reply, errorField).reason)
  {
  }

  // ---------------------------------------------------------------------------
  // Metric timestamps

  /** A metric record; `time` is `None` when absent, and `0` is falsy like an absent time. */
  datatype Metric = Metric(hostId: Option<string>, name: string, time: Option<int>, value: int)

  predicate HasTime(m: Metric) {
    m.time.Some? && m.time.value != 0
  }

  /** `metric.time ? metric.time : 0|(now / 1000)` for a non-negative clock in milliseconds. */
  function Stamp(m: Metric, nowMs: nat): (r: Metric)
    ensures r.hostId == m.hostId && r.name == m.name && r.value == m.value
    ensures HasTime(m) ==> r.time == m.time
    ensures !HasTime(m) ==> r.time.Some? && 1000 * r.time.value <= nowMs < 1000 * (r.time.value + 1)
  {
    if HasTime(m) then m else m.(time := Some(nowMs / 1000))
  }

  /**
   * The metrics after the fill, element by element: `nows[i]` is the clock
   * reading taken when the loop reaches metric `i` (`Date.now()` is read once
   * per metric).
   */
  function StampAll(ms: seq<Metric>, nows: seq<nat>): seq<Metric>
    requires |nows| == |ms|
  {
    if ms == [] then [] else [Stamp(ms[0], nows[0])] + StampAll(ms[1..], nows[1..])
  }

  /** The fill keeps the length and applies `Stamp` to each metric in place, with that metric's reading. */
  lemma {:induction false} StampAllAt(ms: seq<Metric>, nows: seq<nat>, i: nat)
    requires |nows| == |ms|
    requires i < |ms|
    ensures |StampAll(ms, nows)| == |ms|
    ensures StampAll(ms, nows)[i] == Stamp(ms[i], nows[i])
  {
    if i > 0 {
      StampAllAt(ms[1..], nows[1..], i - 1);
    } else if |ms| > 1 {
      StampAllAt(ms[1..], nows[1..], 0);
    }
  }

  lemma {:induction false} StampAllLength(ms: seq<Metric>, nows: seq<nat>)
    requires |nows| == |ms|
    ensures |StampAll(ms, nows)| == |ms|
  {
    if ms != [] {
      StampAllLength(ms[1..], nows[1..]);
    }
  }

  /** Readings past the first second of the epoch. */
  predicate PastFirstSecond(nows: seq<nat>) {
    forall i :: 0 <= i < |nows| ==> nows[i] >= 1000
  }

  /** Once the clock is past the first second, every metric leaves the fill with a truthy time. */
  lemma StampAllTimed(ms: seq<Metric>, nows: seq<nat>, i: nat)
    requires |nows| == |ms| && PastFirstSecond(nows)
    requires i < |ms|
    ensures |StampAll(ms, nows)| == |ms|
    ensures HasTime(StampAll(ms, nows)[i])
  {
    StampAllAt(ms, nows, i);
  }

  /**
   * Once the clock is past the first second, a second fill changes nothing: every
   * metric then has a non-zero time.  (Before that, the fill writes `0`, which
   * the next fill treats as absent.)
   */
  lemma {:induction false} StampAllIdempotent(ms: seq<Metric>, nows: seq<nat>, later: seq<nat>)
    requires |nows| == |ms| && |later| == |ms|
    requires PastFirstSecond(nows)
    ensures |StampAll(ms, nows)| == |ms|
    ensures StampAll(StampAll(ms, nows), later) == StampAll(ms, nows)
  {
    StampAllLength(ms, nows);
    if ms != [] {
      StampAllIdempotent(ms[1..], nows[1..], later[1..]);
      assert HasTime(Stamp(ms[0], nows[0]));
    }
  }

  /**
   * The `forEach` loop of `postMetrics`/`postServiceMetrics`, over the caller's
   * array; `nows[i]` is the clock reading taken at metric `i`.
   */
  method StampMetrics(metrics: array<Metric>, nows: seq<nat>)
    requires |nows| == metrics.Length
    modifies metrics
    ensures metrics[..] == StampAll(old(metrics[..]), nows)
    ensures PastFirstSecond(nows) ==> forall i :: 0 <= i < metrics.Length ==> HasTime(metrics[i])
  {
    ghost var original := metrics[..];
    StampAllLength(original, nows);
    var i := 0;
    while i < metrics.Length
      invariant 0 <= i <= metrics.Length
      invariant forall k :: 0 <= k < i ==> metrics[k] == Stamp(original[k], nows[k])
      invariant forall k :: i <= k < metrics.Length ==> metrics[k] == original[k]
    {
      metrics[i] := Stamp(metrics[i], nows[i]);
      i := i + 1;
    }
    forall k | 0 <= k < metrics.Length
      ensures metrics[..][k] == StampAll(original, nows)[k]
    {
      StampAllAt(original, nows, k);
    }
    if PastFirstSecond(nows) {
      forall k | 0 <= k < metrics.Length
        ensures HasTime(metrics[k])
      {
        StampAllTimed(original, nows, k);
      }
    }
  }
}
