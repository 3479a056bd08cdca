/**
 * The older, callback-or-promise Mackerel client (lib/mackerel.js).  It differs
 * from the promise-based one in its rules: the callback is found by looking at
 * the last argument, the payload is sent as a JSON body, a 401 is reported as an
 * authentication failure before the generic status rule, and the public methods
 * check their arguments before any request is built.
 *
 * As in the other client, the transport's reply is an input value, JSON
 * encoding is the injected `Encoder` and JSON decoding the injected `Parser`.
 */
module Legacy {
  import opened Js
  import opened Promises

  const DefaultOrigin := "https://mackerel.io"
  const DefaultVersion := "v0"
  const JsonMime := "application/json"

  /** `Mackerel.statuses`, spelled as in the source (so "retired" is not accepted). */
  const Statuses: seq<string> := ["standby", "working", "maintenance", "retuired"]

  /** The constructor's `option`; `None` is an absent property. */
  datatype Options = Options(mackerelOrigin: Option<string>, version: Option<string>, proxy: Option<string>)

  const NoOptions := Options(None, None, None)

  datatype Error =
    | NoApiKeyError(message: string)
    | AuthenticationError(message: string)
    | ApiError(message: string)
    | NoDataError(message: string)
    | NoIdError(message: string)
    | InvalidStatusError(message: string)
    | TransportError(cause: string)  // the transport's own `err`
    | CallbackError(message: string) // thrown by the caller's completion callback

  // ---------------------------------------------------------------------------
  // Error messages

  const NoApiKeyPrefix := "api key required"
  const AuthenticationPrefix := "authentication failed"

  /**
   * `prefix + ((msg != null) && msg || "")`, the message of `NoApiKeyError` and
   * of `AuthenticationError`: the optional message is appended when non-empty.
   */
  function SuffixedMessage(prefix: string, msg: Option<string>): (m: string)
    ensures Filled(msg) ==> m == prefix + msg.value
    ensures !Filled(msg) ==> m == prefix
    ensures |m| >= |prefix| && m[..|prefix|] == prefix
  {
    if Filled(msg) then prefix + msg.value else prefix
  }

  /** `JSON.stringify(body)` for the raw body text: the text as a JSON string literal. */
  function ApiErrorMessage(enc: Encoder, body: string): (m: string)
    ensures Stringify(enc, Str(body)) == Some(m)
  {
    enc(Str(body))
  }

  /** "api `<api>` requires `data`" */
  function NoDataMessage(api: string): (m: string)
    ensures |m| == |api| + 22
    ensures m[..5] == "api `" && m[5..|m| - 17] == api && m[|m| - 17..] == "` requires `data`"
  {
    "api `" + api + "` requires `data`"
  }

  /** "api `<api>` requires `id`" */
  function NoIdMessage(api: string): (m: string)
    ensures |m| == |api| + 20
    ensures m[..5] == "api `" && m[5..|m| - 15] == api && m[|m| - 15..] == "` requires `id`"
  {
    "api `" + api + "` requires `id`"
  }

  /** "`<status>` is invalid", where a missing status reads "undefined". */
  function InvalidStatusMessage(status: Option<string>): (m: string)
    ensures |m| == |Interpolate(status)| + 13
    ensures m[..1] == "`" && m[|m| - 12..] == "` is invalid"
    ensures m[1..|m| - 12] == Interpolate(status)
  {
    "`" + Interpolate(status) + "` is invalid"
  }

  /** A guard message names its method: equal messages come from the same method. */
  lemma NoIdMessageInjective(a: string, b: string)
    requires NoIdMessage(a) == NoIdMessage(b)
    ensures a == b
  {
    var m := NoIdMessage(a);
    assert a == m[5..|m| - 15] == b;
  }

  /** A missing id and missing data are never reported with the same message. */
  lemma GuardMessagesDiffer(a: string, b: string)
    ensures NoIdMessage(a) != NoDataMessage(b)
  {
    var m, n := NoIdMessage(a), NoDataMessage(b);
    assert m[|m| - 2] == 'd';
    assert n[|n| - 2] == 'a';
  }

  // ---------------------------------------------------------------------------
  // Construction

  datatype Client = Client(apikey: string, option: Options, origin: string, version: string, endpoint: string)

  /** `new Mackerel(apikey, option)`: throws `NoApiKeyError` without a non-empty key. */
  function New(apikey: Option<string>, option: Option<Options>): (r: Result<Client, Error>)
    ensures r.Failure? <==> !Filled(apikey)
    ensures r.Failure? ==> r.error == NoApiKeyError("api key required")
    ensures r.Success? ==> r.value.apikey == apikey.value && r.value.apikey != ""
    ensures r.Success? ==> r.value.option == (if option.Some? then option.value else NoOptions)
    ensures r.Success? ==> r.value.origin == StringOr(r.value.option.mackerelOrigin, DefaultOrigin)
    ensures r.Success? ==> r.value.version == StringOr(r.value.option.version, DefaultVersion)
    ensures r.Success? ==> r.value.endpoint == r.value.origin + "/api/" + r.value.version
  {
    var opts := if option.Some? then option.value else NoOptions;
    if !Filled(apikey) then Failure(NoApiKeyError(SuffixedMessage(NoApiKeyPrefix, None)))
    else
      var origin := StringOr(opts.mackerelOrigin, DefaultOrigin);
      var version := StringOr(opts.version, DefaultVersion);
      Success(Client(apikey.value, opts, origin, version, "" + origin + "/api/" + version))
  }

  /** Without options the client uses version v0 of the public service. */
  lemma DefaultEndpoint(apikey: string)
    requires apikey != ""
    ensures New(Some(apikey), None).Success?
    ensures New(Some(apikey), None).value.endpoint == "https://mackerel.io/api/v0"
  {
  }

  // ---------------------------------------------------------------------------
  // api

  /** The options handed to the transport; `body` is `Undefined` when no body is set. */
  datatype RequestOption = RequestOption(verb: string, url: string, proxy: Option<string>,
                                         headers: seq<(string, string)>, body: Value)

  /** `args[args.length - 1] != null && typeof args[args.length - 1] === "function"` */
  predicate HasTrailingCallback(args: seq<Value>) {
    |args| > 0 && args[|args| - 1].Fn?
  }

  /** The `body` parameter of `api`: its third positional argument, popped or not. */
  function BodyArgument(rest: seq<Value>): (b: Value)
    ensures |rest| > 0 ==> b == rest[0]
    ensures rest == [] ==> b == Undefined
  {
    if |rest| > 0 then rest[0] else Undefined
  }

  /**
   * The options `api` builds: the key header, then the JSON text of the body
   * when the body is truthy, then the JSON content type; the URL is the
   * endpoint followed by the path, and the proxy is the configured one.
   */
  predicate IsRequestFor(opt: RequestOption, c: Client, path: string, verb: string, body: Value, enc: Encoder) {
    && opt.verb == verb
    && opt.url == c.endpoint + path
    && opt.proxy == c.option.proxy
    && opt.headers == [("X-Api-Key", c.apikey), ("Content-Type", JsonMime)]
    && opt.body == (if Truthy(body) then TextValue(Stringify(enc, body)) else Undefined)
  }

  /** `api`'s option building, step by step. */
  method BuildRequest(c: Client, path: string, verb: string, body: Value, enc: Encoder) returns (opt: RequestOption)
    ensures IsRequestFor(opt, c, path, verb, body, enc)
  {
    opt := RequestOption(verb, "" + c.endpoint + path, c.option.proxy, [("X-Api-Key", c.apikey)], Undefined);
    if Truthy(body) {
      opt := opt.(body := TextValue(Stringify(enc, body)));
    }
    opt := opt.(headers := opt.headers + [("Content-Type", JsonMime)]);
  }

  /** A falsy body sends no body; a truthy serialisable one sends exactly its JSON text. */
  lemma BodyIsJsonText(opt: RequestOption, c: Client, path: string, verb: string, body: Value, enc: Encoder)
    requires IsRequestFor(opt, c, path, verb, body, enc)
    ensures !Truthy(body) ==> opt.body == Undefined
    ensures Truthy(body) && !body.Fn? ==> opt.body == Str(enc(body))
  {
  }

  /**
   * When the callback is the third argument (`getHosts(cb)`, `getHostInfo(id, cb)`)
   * it is also the `body` parameter, and since a function has no JSON text the
   * request goes out without a body.
   */
  lemma CallbackAsBodySendsNoBody(opt: RequestOption, c: Client, path: string, verb: string, enc: Encoder)
    requires IsRequestFor(opt, c, path, verb, Fn, enc)
    ensures opt.body == Undefined
  {
  }

  datatype Response = Response(statusCode: int)

  /**
   * What `Mackerel.request` settles with: the transport's error, or else the
   * response and its body text (the transport always supplies both when it
   * reports no error).
   */
  datatype Reply = Reply(err: Option<string>, res: Response, body: string)

  /** What a successful call resolves with: the response and the parsed body. */
  datatype ResBody = ResBody(res: Response, body: Value)

  /** `JSON.parse`, supplied by the JSON library. */
  type Parser = string -> Value

  /**
   * `Mackerel.request` followed by `api`'s status handler: a transport error
   * rejects; a 401 rejects with an authentication error before the generic
   * rule; any other status of 400 or more rejects with the body's JSON text;
   * otherwise the call resolves with the parsed body.  The body seen by the
   * handler is the raw text, so `body.error` is undefined in the 401 branch.
   */
  function Classify(reply: Reply, enc: Encoder, parse: Parser): (s: Settlement<ResBody, Error>)
    ensures !s.Pending?
    ensures reply.err.Some? ==> s == Rejected(TransportError(reply.err.value))
    ensures reply.err.None? && reply.res.statusCode == 401 ==>
              s == Rejected(AuthenticationError("authentication failed"))
    ensures reply.err.None? && reply.res.statusCode != 401 && reply.res.statusCode >= 400 ==>
              s == Rejected(ApiError(enc(Str(reply.body))))
    ensures s.Fulfilled? <==> reply.err.None? && reply.res.statusCode < 400
    ensures s.Fulfilled? ==> s.value == ResBody(reply.res, parse(reply.body))
  {
    if reply.err.Some? then Rejected(TransportError(reply.err.value))
    else if reply.res.statusCode == 401 then
      Rejected(AuthenticationError(SuffixedMessage(AuthenticationPrefix, StringProperty(Str(reply.body), "error"))))
    else if reply.res.statusCode >= 400 then Rejected(ApiError(ApiErrorMessage(enc, reply.body)))
    else Fulfilled(ResBody(reply.res, parse(reply.body)))
  }

  /**
   * `api(path, method, ...rest)`: builds the request from the third argument,
   * classifies the reply, and routes it through the callback when the last
   * argument is a function (`run` is what that function does).
   */
  method Api(c: Client, path: string, verb: string, rest: seq<Value>, run: Callback<ResBody, Error>,
             enc: Encoder, parse: Parser, reply: Reply)
    returns (opt: RequestOption, d: Delivery<ResBody, Error>)
    ensures IsRequestFor(opt, c, path, verb, BodyArgument(rest), enc)
    ensures d == ThenCatch(Classify(reply, enc, parse),
                           if HasTrailingCallback([Str(path), Str(verb)] + rest) then Some(run) else None)
  {
    var args := [Str(path), Str(verb)] + rest;
    // `body` is bound to the third argument before the callback is popped.
    var body := if |args| > 2 then args[2] else Undefined;
    var cb: Option<Callback<ResBody, Error>> := None;
    if args[|args| - 1].Fn? {
      cb := Some(run);
      args := args[..|args| - 1];
    }
    opt := BuildRequest(c, path, verb, body, enc);
    d := ThenCatch(Classify(reply, enc, parse), cb);
  }

  /** Only a function in the last position is taken as the callback. */
  lemma TrailingCallback(path: string, verb: string, rest: seq<Value>)
    ensures HasTrailingCallback([Str(path), Str(verb)] + rest + [Fn])
    ensures !HasTrailingCallback([Str(path), Str(verb)] + rest + [Undefined])
    ensures !HasTrailingCallback([Str(path), Str(verb)])
  {
  }

  // ---------------------------------------------------------------------------
  // Public methods and their argument guards

  /** The public methods of this client, with the arguments their callers pass. */
  datatype Method =
    | GetHosts(cb: Value)
    | AddHost(data: Value, cb: Value)
    | GetHostInfo(id: Option<string>, cb: Value)
    | UpdateHostInfo(id: Option<string>, data: Value, cb: Value)
    | ChangeHostStatus(id: Option<string>, status: Option<string>, cb: Value)
    | RetireHost(id: Option<string>, cb: Value)
    | PostMetric(data: Value, cb: Value)

  /** The arguments a public method passes to `api`. */
  datatype Call = Call(path: string, verb: string, rest: seq<Value>)

  /** A public method either fails its guard (a rejected promise, no request) or calls `api`. */
  datatype Dispatch = Refused(error: Error) | Forward(call: Call)

  function NameOf(m: Method): string {
    match m
    case GetHosts(_) => "getHosts"
    case AddHost(_, _) => "addHost"
    case GetHostInfo(_, _) => "getHostInfo"
    case UpdateHostInfo(_, _, _) => "updateHostInfo"
    case ChangeHostStatus(_, _, _) => "changeHostStatus"
    case RetireHost(_, _) => "retireHost"
    case PostMetric(_, _) => "postMetric"
  }

  predicate TakesId(m: Method) {
    m.GetHostInfo? || m.UpdateHostInfo? || m.ChangeHostStatus? || m.RetireHost?
  }

  predicate TakesData(m: Method) {
    m.AddHost? || m.UpdateHostInfo? || m.PostMetric?
  }

  /**
   * The guards and calls of the public methods: the id is checked first, then
   * the data or the status; a method that passes its guards calls `api`.
   */
  function DispatchOf(m: Method): (r: Dispatch)
    ensures TakesId(m) && !Filled(m.id) ==> r == Refused(NoIdError(NoIdMessage(NameOf(m))))
    ensures TakesData(m) && (TakesId(m) ==> Filled(m.id)) && !Truthy(m.data) ==>
              r == Refused(NoDataError(NoDataMessage(NameOf(m))))
    ensures m.ChangeHostStatus? && Filled(m.id) && !(m.status.Some? && m.status.value in Statuses) ==>
              r == Refused(InvalidStatusError(InvalidStatusMessage(m.status)))
    ensures r.Forward? <==>
              && (TakesId(m) ==> Filled(m.id))
              && (TakesData(m) ==> Truthy(m.data))
              && (m.ChangeHostStatus? ==> m.status.Some? && m.status.value in Statuses)
    ensures r.Forward? ==> |r.call.rest| > 0 && r.call.rest[|r.call.rest| - 1] == m.cb
  {
    match m
    case GetHosts(cb) => Forward(Call("/hosts.json", "GET", [cb]))
    case AddHost(data, cb) =>
      if !Truthy(data) then Refused(NoDataError(NoDataMessage("addHost")))
      else Forward(Call("/hosts", "POST", [data, cb]))
    case GetHostInfo(id, cb) =>
      if !Filled(id) then Refused(NoIdError(NoIdMessage("getHostInfo")))
      else Forward(Call("/hosts/" + id.value, "GET", [cb]))
    case UpdateHostInfo(id, data, cb) =>
      if !Filled(id) then Refused(NoIdError(NoIdMessage("updateHostInfo")))
      else if !Truthy(data) then Refused(NoDataError(NoDataMessage("updateHostInfo")))
      else Forward(Call("/hosts/" + id.value, "PUT", [data, cb]))
    case ChangeHostStatus(id, status, cb) =>
      if !Filled(id) then Refused(NoIdError(NoIdMessage("changeHostStatus")))
      else if !(status.Some? && status.value in Statuses) then Refused(InvalidStatusError(InvalidStatusMessage(status)))
      else Forward(Call("/hosts/" + id.value + "/status", "POST", [Obj([("status", Str(status.value))]), cb]))
    case RetireHost(id, cb) =>
      if !Filled(id) then Refused(NoIdError(NoIdMessage("retireHost")))
      else Forward(Call("/hosts/" + id.value + "/retire", "POST", [EmptyObject, cb]))
    case PostMetric(data, cb) =>
      if !Truthy(data) then Refused(NoDataError(NoDataMessage("postMetric")))
      else Forward(Call("/tsdb", "POST", [data, cb]))
  }

  /** `updateHostInfo` with neither id nor data reports the missing id. */
  lemma IdCheckedBeforeData(data: Value, cb: Value)
    ensures DispatchOf(UpdateHostInfo(None, data, cb)) == Refused(NoIdError("api `updateHostInfo` requires `id`"))
  {
    assert "api `" + "updateHostInfo" == "api `updateHostInfo";
    assert "api `updateHostInfo" + "` requires `id`" == "api `updateHostInfo` requires `id`";
  }

  /** The correctly spelled "retired" is not one of the accepted statuses. */
  lemma RetiredIsInvalid(id: string, cb: Value)
    requires id != ""
    ensures DispatchOf(ChangeHostStatus(Some(id), Some("retired"), cb))
              == Refused(InvalidStatusError("`retired` is invalid"))
  {
    assert "retired" !in Statuses by {
      assert "retired"[0] != "standby"[0] && "retired"[0] != "working"[0];
    }
    assert InvalidStatusMessage(Some("retired")) == "`retired` is invalid";
  }

  /** A missing status is reported as "`undefined` is invalid". */
  lemma MissingStatusMessage(id: string, cb: Value)
    requires id != ""
    ensures DispatchOf(ChangeHostStatus(Some(id), None, cb)) == Refused(InvalidStatusError("`undefined` is invalid"))
  {
    assert InvalidStatusMessage(None) == "`undefined` is invalid";
  }

  /**
   * A public method call: a refused guard rejects at once, without building a
   * request and without calling the callback; otherwise the call goes to `api`.
   */
  method Invoke(c: Client, m: Method, run: Callback<ResBody, Error>, enc: Encoder, parse: Parser, reply: Reply)
    returns (opt: Option<RequestOption>, d: Delivery<ResBody, Error>)
    ensures DispatchOf(m).Refused? ==> opt.None? && d == Delivery([], Rejected(DispatchOf(m).error))
    ensures DispatchOf(m).Forward? ==>
              var call := DispatchOf(m).call;
              && opt.Some?
              && IsRequestFor(opt.value, c, call.path, call.verb, BodyArgument(call.rest), enc)
              && d == ThenCatch(Classify(reply, enc, parse), if m.cb.Fn? then Some(run) else None)
  {
    var r := DispatchOf(m);
    if r.Refused? {
      opt := None;
      d := Delivery([], Rejected(r.error));
    } else {
      var o;
      o, d := Api(c, r.call.path, r.call.verb, r.call.rest, run, enc, parse, reply);
      opt := Some(o);
    }
  }

  /** A 401 is an authentication failure even though it is also a status of 400 or more. */
  lemma UnauthorizedBeforeApiError(reply: Reply, enc: Encoder, parse: Parser)
    requires reply.err.None? && reply.res.statusCode == 401
    ensures Classify(reply, enc, parse).Rejected?
    ensures Classify(reply, enc, parse).reason.AuthenticationError?
  {
  }
}
